/** The spend accounting loop as one protocol: requests, counters, usage pipeline and reconciliation,
    interleaved at every await point (src/proxy/router.rs, src/quota/, src/usage/recorder.rs,
    src/state.rs). */
module SpendLoop {
  import opened Basics
  import opened Usage
  import opened Quota
  import opened Recorder

  // --- state ---

  /** What became of a finished request's usage record. */
  datatype Fate = Pending | Queued | Dropped | Cancelled

  /** A request, from the arrival that loads a snapshot to the enqueued record. The quota check reads the two
      counters in separate steps; so do the two counter additions and the enqueue. */
  datatype Stage =
    | Arrived
    | UserPassed
    | Admitted
    | Rejected(decision: QuotaDecision)
    | Ended
    | Completed(record: UsageRecord, userAdded: bool, keyAdded: bool, fate: Fate)

  datatype Request = Request(user: Uuid, key: Uuid, granted: Money, cap: Option<Money>, stage: Stage)

  /** A reconciliation pass: the user sums are read, then the key sums, then scopes are reset one by one. */
  datatype Pass = Idle | UsersRead(users: Counters) | Resetting(pending: Counters)

  datatype Gateway = Gateway(
    history: seq<UsageRecord>,
    requests: seq<Request>,
    counters: Counters,
    pipe: Pipe<UsageRecord>,
    db: seq<UsageRecord>,
    lost: seq<UsageRecord>,
    pass: Pass)

  /** A freshly started process over a database that already holds `history`: nothing is served before a
      reconciliation pass has seeded the counters, and a process whose seeding fails does not start. */
  function Boot(history: seq<UsageRecord>): Gateway {
    Gateway(history, [], map[] + SumsByUser(history) + SumsByKey(history), Empty(), history, [], Idle)
  }

  /** The seeding of `build_router`. */
  method Seed(history: seq<UsageRecord>) returns (counter: MemoryCounter)
    ensures fresh(counter) && counter.values == Boot(history).counters
  {
    counter := new MemoryCounter();
    ReconcileCounters(history, counter);
  }

  // --- steps ---

  /** What a request's own task does next. */
  datatype Move =
    | CheckUser
    | CheckKey
    | End
    | Complete(completion: Completion)
    | AddUser
    | AddKey
    | Enqueue
    | Cancel

  datatype Action =
    | Arrive(user: Uuid, key: Uuid, granted: Money, cap: Option<Money>)
    | At(i: nat, move: Move)
    | Write(event: Event<UsageRecord>)
    | FlushOk
    | FlushFail
    | ReadUsers
    | ReadKeys
    | ReadFail
    | Reset(scope: Scope)
    | PassDone

  ghost predicate CanMove(stage: Stage, move: Move) {
    match move
    case CheckUser => stage.Arrived?
    case CheckKey => stage.UserPassed?
    case End => stage.Admitted?
    case Complete(c) => stage.Admitted? && Plausible(c)
    case AddUser => stage.Completed? && stage.fate == Pending && !stage.userAdded
    case AddKey => stage.Completed? && stage.fate == Pending && stage.userAdded && !stage.keyAdded
    case Enqueue => stage.Completed? && stage.fate == Pending && stage.keyAdded
    case Cancel => stage.Completed? && stage.fate == Pending
  }

  predicate WriterEvent(e: Event<UsageRecord>) {
    e == Recv || e == Tick || e == Shutdown || e == DrainOne || e == DrainEnd
  }

  ghost predicate CanDo(g: Gateway, a: Action) {
    match a
    case Arrive(_, _, _, _) => true
    case At(i, move) => i < |g.requests| && CanMove(g.requests[i].stage, move)
    case Write(e) => WriterEvent(e) && Enabled(g.pipe, e)
    case FlushOk => g.pipe.busy
    case FlushFail => g.pipe.busy
    case ReadUsers => g.pass.Idle?
    case ReadKeys => g.pass.UsersRead?
    case ReadFail => !g.pass.Resetting?
    case Reset(s) =>
      && g.pass.Resetting? && s in g.pass.pending
      && (s.Key? ==> forall u :: u in g.pass.pending ==> u.Key?)
    case PassDone => g.pass.Resetting? && g.pass.pending == map[]
  }

  /** `spend_counter.add` for a record that has a cost. */
  function Charge(values: Counters, scope: Scope, cost: Option<Money>): Counters {
    if cost.Some? then CounterAdd(values, scope, cost.value) else values
  }

  /** The batch whose insertion is under way. */
  function InFlight(p: Pipe<UsageRecord>): seq<UsageRecord> {
    if p.busy && p.handed != [] then p.handed[|p.handed| - 1] else []
  }

  function MovedStage(g: Gateway, q: Request, move: Move): Stage
    requires CanMove(q.stage, move)
  {
    match move
    case CheckUser =>
      if CounterGet(g.counters, User(q.user)) >= q.granted then Rejected(UserExhausted(q.granted))
      else if q.cap.Some? then UserPassed
      else Admitted
    case CheckKey =>
      if q.cap.Some? && CounterGet(g.counters, Key(q.key)) >= q.cap.value then Rejected(KeyCapReached(q.cap.value))
      else Admitted
    case End => Ended
    case Complete(c) => Completed(RecordOf(c, q.user, q.key), false, false, Pending)
    case AddUser => q.stage.(userAdded := true)
    case AddKey => q.stage.(keyAdded := true)
    case Enqueue =>
      q.stage.(fate := if NewlyAccepted(g.pipe, Send(q.stage.record)) != [] then Queued else Dropped)
    case Cancel => q.stage.(fate := Cancelled)
  }

  function MovedCounters(g: Gateway, q: Request, move: Move): Counters
    requires CanMove(q.stage, move)
  {
    match move
    case AddUser => Charge(g.counters, User(q.user), q.stage.record.cost)
    case AddKey => Charge(g.counters, Key(q.key), q.stage.record.cost)
    case _ => g.counters
  }

  function MovedPipe(g: Gateway, q: Request, move: Move): Pipe<UsageRecord>
    requires CanMove(q.stage, move)
  {
    if move.Enqueue? then Step(g.pipe, Send(q.stage.record)) else g.pipe
  }

  function Do(g: Gateway, a: Action): Gateway
    requires CanDo(g, a)
  {
    match a
    case Arrive(user, key, granted, cap) => g.(requests := g.requests + [Request(user, key, granted, cap, Arrived)])
    case At(i, move) =>
      var q := g.requests[i];
      g.(requests := g.requests[i := q.(stage := MovedStage(g, q, move))],
         counters := MovedCounters(g, q, move),
         pipe := MovedPipe(g, q, move))
    case Write(e) => g.(pipe := Next(g.pipe, e))
    case FlushOk => g.(pipe := Next(g.pipe, FlushDone), db := g.db + InFlight(g.pipe))
    case FlushFail => g.(pipe := Next(g.pipe, FlushDone), lost := g.lost + InFlight(g.pipe))
    case ReadUsers => g.(pass := UsersRead(SumsByUser(g.db)))
    case ReadKeys => g.(pass := Resetting(g.pass.users + SumsByKey(g.db)))
    case ReadFail => g.(pass := Idle)
    case Reset(s) => g.(counters := g.counters[s := g.pass.pending[s]], pass := Resetting(g.pass.pending - {s}))
    case PassDone => g.(pass := Idle)
  }

  // --- measures ---

  /** Per request and scope: the cost incurred, the part already added to the counter, and the part of that
      which never entered the usage channel (not yet, dropped, or cancelled on the way). */
  datatype Measure = Incurred | Counted | Unrecorded

  function Of(m: Measure, q: Request, s: Scope): Money {
    if !q.stage.Completed? then 0.0
    else
      var w := Weight(q.stage.record, s);
      var added := match s { case User(_) => q.stage.userAdded case Key(_) => q.stage.keyAdded };
      match m
      case Incurred => w
      case Counted => if added then w else 0.0
      case Unrecorded => if added && q.stage.fate != Queued then w else 0.0
  }

  function Total(m: Measure, qs: seq<Request>, s: Scope): Money {
    if qs == [] then 0.0 else Total(m, qs[..|qs| - 1], s) + Of(m, qs[|qs| - 1], s)
  }

  lemma {:induction false} TotalUpdate(m: Measure, qs: seq<Request>, i: nat, q: Request, s: Scope)
    requires i < |qs|
    ensures Total(m, qs[i := q], s) == Total(m, qs, s) - Of(m, qs[i], s) + Of(m, q, s)
  {
    var n := |qs| - 1;
    if i == n {
      assert qs[i := q][..n] == qs[..n];
    } else {
      assert qs[i := q][..n] == qs[..n][i := q];
      TotalUpdate(m, qs[..n], i, q, s);
    }
  }

  lemma TotalSnoc(m: Measure, qs: seq<Request>, q: Request, s: Scope)
    ensures Total(m, qs + [q], s) == Total(m, qs, s) + Of(m, q, s)
  {
    assert (qs + [q])[..|qs|] == qs;
  }

  /** The true cumulative cost of a scope: what the database held at boot and everything incurred since. */
  function TrueSpend(g: Gateway, s: Scope): Money {
    Spent(g.history, s) + Total(Incurred, g.requests, s)
  }

  /** The part of it that has been added to the counters. */
  function AddedSpend(g: Gateway, s: Scope): Money {
    Spent(g.history, s) + Total(Counted, g.requests, s)
  }

  function Counter(g: Gateway, s: Scope): Money {
    CounterGet(g.counters, s)
  }

  /** How far a counter trails what was added to it. */
  function Shortfall(g: Gateway, s: Scope): Money {
    AddedSpend(g, s) - Counter(g, s)
  }

  /** What has been added but is not in the database: queued, buffered, being inserted, lost with a failed
      batch, or never enqueued. */
  function Missing(g: Gateway, s: Scope): Money {
    PipeSpent(g.pipe, s) + Spent(g.lost, s) + Total(Unrecorded, g.requests, s)
  }

  function PipeSpent(p: Pipe<UsageRecord>, s: Scope): Money {
    Spent(InFlight(p), s) + Spent(p.buffer, s) + Spent(p.channel, s)
  }

  // --- invariants ---

  ghost predicate RequestOk(q: Request) {
    && (q.stage.Completed? ==>
          && CostOk(q.stage.record)
          && q.stage.record.userId == Some(q.user) && q.stage.record.apiKeyId == Some(q.key)
          && (q.stage.keyAdded ==> q.stage.userAdded)
          && (q.stage.fate == Queued || q.stage.fate == Dropped ==> q.stage.keyAdded))
    && (q.stage.Rejected? ==>
          || q.stage.decision == UserExhausted(q.granted)
          || (q.cap.Some? && q.stage.decision == KeyCapReached(q.cap.value)))
    && (q.stage.UserPassed? ==> q.cap.Some?)
  }

  /** Every place a record can be in carries no negative cost, and the pipeline is well formed. */
  ghost predicate Shape(g: Gateway) {
    && (forall q :: q in g.requests ==> RequestOk(q))
    && CostsOk(g.history) && CostsOk(g.db) && CostsOk(g.lost)
    && CostsOk(g.pipe.channel) && CostsOk(g.pipe.buffer) && CostsOk(InFlight(g.pipe))
    && Bounded(g.pipe) && (g.pipe.busy ==> g.pipe.handed != []) && g.pipe.connected
    && (g.pass.UsersRead? ==> forall u :: u in g.pass.users ==> u.User?)
  }

  /** Conservation: whatever was added to a counter is in the database or accounted for as missing. */
  ghost predicate Balanced(g: Gateway, s: Scope) {
    AddedSpend(g, s) == Spent(g.db, s) + Missing(g, s)
  }

  /** A scope's counter, and every sum waiting to be written to it, is at most what was added. */
  ghost predicate Below(g: Gateway, s: Scope) {
    && Counter(g, s) <= AddedSpend(g, s)
    && (g.pass.UsersRead? && s in g.pass.users ==> g.pass.users[s] <= AddedSpend(g, s))
    && (g.pass.Resetting? && s in g.pass.pending ==> g.pass.pending[s] <= AddedSpend(g, s))
  }

  /** A rejected request met a spend that had truly reached its limit. */
  ghost predicate Justified(g: Gateway, q: Request) {
    q.stage.Rejected? ==>
      match q.stage.decision
      case UserExhausted(granted) => granted == q.granted && TrueSpend(g, User(q.user)) >= granted
      case KeyCapReached(cap) => q.cap == Some(cap) && TrueSpend(g, Key(q.key)) >= cap
      case Allowed => true
  }

  ghost predicate Inv(g: Gateway) {
    && Shape(g)
    && (forall s :: Balanced(g, s) && Below(g, s))
    && (forall q :: q in g.requests ==> Justified(g, q))
  }

  // --- the pipeline moves records, it does not change sums ---

  ghost predicate PipeOk(p: Pipe<UsageRecord>) {
    && Bounded(p) && (p.busy ==> p.handed != []) && p.connected
    && CostsOk(p.channel) && CostsOk(p.buffer) && CostsOk(InFlight(p))
  }

  lemma BoundedStep(p: Pipe<UsageRecord>, e: Event<UsageRecord>)
    requires Bounded(p)
    ensures Bounded(Step(p, e))
  {
    StepKeeps(p, e, Flatten(p.handed) + p.buffer + p.channel);
  }

  lemma PoppedSpent(p: Pipe<UsageRecord>, s: Scope)
    requires p.channel != [] && CostsOk(p.channel) && CostsOk(p.buffer)
    ensures PipeSpent(Popped(p), s) == PipeSpent(p, s)
    ensures CostsOk(Popped(p).channel) && CostsOk(Popped(p).buffer)
  {
    SpentConcat(p.buffer, [p.channel[0]], s);
    assert [p.channel[0]][1..] == [];
    assert p.channel[0] in p.channel;
  }

  lemma FlushSpent(p: Pipe<UsageRecord>, s: Scope)
    requires !p.busy
    ensures PipeSpent(StartFlush(p), s) == PipeSpent(p, s)
    ensures p.buffer != [] ==> InFlight(StartFlush(p)) == p.buffer
  {
  }

  lemma WriterStepSpent(p: Pipe<UsageRecord>, e: Event<UsageRecord>, s: Scope)
    requires PipeOk(p) && WriterEvent(e) && Enabled(p, e)
    ensures PipeOk(Next(p, e)) && PipeSpent(Next(p, e), s) == PipeSpent(p, s)
  {
    BoundedStep(p, e);
    match e
    case Recv =>
      PoppedSpent(p, s);
      FlushSpent(Popped(p), s);
    case DrainOne => PoppedSpent(p, s);
    case Tick => FlushSpent(p, s);
    case DrainEnd => FlushSpent(p, s);
    case Shutdown =>
  }

  lemma SendSpent(p: Pipe<UsageRecord>, r: UsageRecord, s: Scope)
    requires PipeOk(p) && CostOk(r)
    ensures PipeOk(Step(p, Send(r)))
    ensures PipeSpent(Step(p, Send(r)), s) ==
            PipeSpent(p, s) + if NewlyAccepted(p, Send(r)) != [] then Weight(r, s) else 0.0
  {
    BoundedStep(p, Send(r));
    SpentConcat(p.channel, [r], s);
    assert [r][1..] == [];
  }

  lemma FlushDoneSpent(p: Pipe<UsageRecord>, s: Scope)
    requires PipeOk(p) && p.busy
    ensures PipeOk(Next(p, FlushDone))
    ensures PipeSpent(Next(p, FlushDone), s) == PipeSpent(p, s) - Spent(InFlight(p), s)
  {
    BoundedStep(p, FlushDone);
  }

  // --- one step ---

  lemma MoveOk(g: Gateway, q: Request, move: Move)
    requires RequestOk(q) && CanMove(q.stage, move)
    ensures RequestOk(q.(stage := MovedStage(g, q, move)))
  {
    if move.Complete? {
      RecordCostOk(move.completion, q.user, q.key);
    }
  }

  lemma StepShape(g: Gateway, a: Action)
    requires Shape(g) && CanDo(g, a)
    ensures Shape(Do(g, a))
  {
    var anyScope := User(0);
    match a
    case At(i, move) =>
      assert g.requests[i] in g.requests;
      MoveOk(g, g.requests[i], move);
      if move.Enqueue? { SendSpent(g.pipe, g.requests[i].stage.record, anyScope); }
    case Write(e) => WriterStepSpent(g.pipe, e, anyScope);
    case FlushOk => FlushDoneSpent(g.pipe, anyScope);
    case FlushFail => FlushDoneSpent(g.pipe, anyScope);
    case _ =>
  }

  /** How one move of a request changes its own measures, its counter and the pipeline. */
  lemma MoveDelta(g: Gateway, q: Request, move: Move, s: Scope)
    requires Shape(g) && RequestOk(q) && CanMove(q.stage, move)
    ensures
      var q' := q.(stage := MovedStage(g, q, move));
      && Of(Counted, q', s) - Of(Counted, q, s) == CounterGet(MovedCounters(g, q, move), s) - Counter(g, s)
      && Of(Unrecorded, q', s) - Of(Unrecorded, q, s) + PipeSpent(MovedPipe(g, q, move), s) - PipeSpent(g.pipe, s)
           == Of(Counted, q', s) - Of(Counted, q, s)
      && Of(Counted, q, s) <= Of(Counted, q', s) <= Of(Incurred, q', s)
      && Of(Incurred, q, s) <= Of(Incurred, q', s)
  {
    if move.Complete? {
      RecordCostOk(move.completion, q.user, q.key);
    }
    if move.Enqueue? {
      SendSpent(g.pipe, q.stage.record, s);
    }
  }

  /** What one step may do to the sums of a scope: the counter and the added spend move together unless the scope
      is reset, neither sum ever falls, and conservation is kept. */
  ghost predicate SumsKept(g: Gateway, h: Gateway, s: Scope, reset: bool) {
    && (!reset ==> Shortfall(h, s) == Shortfall(g, s))
    && AddedSpend(g, s) <= AddedSpend(h, s)
    && TrueSpend(g, s) <= TrueSpend(h, s)
    && (Balanced(g, s) ==> Balanced(h, s))
  }

  lemma ArriveSums(g: Gateway, q: Request, s: Scope)
    requires q.stage.Arrived?
    ensures SumsKept(g, g.(requests := g.requests + [q]), s, false)
  {
    TotalSnoc(Incurred, g.requests, q, s);
    TotalSnoc(Counted, g.requests, q, s);
    TotalSnoc(Unrecorded, g.requests, q, s);
  }

  lemma MoveSums(g: Gateway, i: nat, move: Move, s: Scope)
    requires Shape(g) && CanDo(g, At(i, move))
    ensures SumsKept(g, Do(g, At(i, move)), s, false)
  {
    var q := g.requests[i];
    assert q in g.requests;
    var q' := q.(stage := MovedStage(g, q, move));
    MoveDelta(g, q, move, s);
    TotalUpdate(Incurred, g.requests, i, q', s);
    TotalUpdate(Counted, g.requests, i, q', s);
    TotalUpdate(Unrecorded, g.requests, i, q', s);
  }

  /** When the sink is done, what it held is in the database or lost. */
  lemma FlushMoves(g: Gateway, ok: bool, s: Scope)
    requires Shape(g) && g.pipe.busy
    ensures var h := Do(g, if ok then FlushOk else FlushFail);
            Spent(h.db, s) + Missing(h, s) == Spent(g.db, s) + Missing(g, s)
  {
    FlushDoneSpent(g.pipe, s);
    SpentConcat(if ok then g.db else g.lost, InFlight(g.pipe), s);
  }

  lemma FlushSums(g: Gateway, ok: bool, s: Scope)
    requires Shape(g) && g.pipe.busy
    ensures SumsKept(g, Do(g, if ok then FlushOk else FlushFail), s, false)
  {
    FlushMoves(g, ok, s);
  }

  lemma StepSums(g: Gateway, a: Action, s: Scope)
    requires Shape(g) && CanDo(g, a)
    ensures SumsKept(g, Do(g, a), s, a == Reset(s))
  {
    match a
    case Arrive(user, key, granted, cap) => ArriveSums(g, Request(user, key, granted, cap, Arrived), s);
    case At(i, move) => MoveSums(g, i, move, s);
    case Write(e) => WriterStepSpent(g.pipe, e, s);
    case FlushOk => FlushSums(g, true, s);
    case FlushFail => FlushSums(g, false, s);
    case _ =>
  }

  lemma {:induction false} TotalsOrdered(qs: seq<Request>, s: Scope)
    requires forall q :: q in qs ==> RequestOk(q)
    ensures 0.0 <= Total(Unrecorded, qs, s) <= Total(Counted, qs, s) <= Total(Incurred, qs, s)
  {
    if qs != [] {
      assert qs[|qs| - 1] in qs;
      TotalsOrdered(qs[..|qs| - 1], s);
    }
  }

  lemma MissingNonNegative(g: Gateway, s: Scope)
    requires Shape(g)
    ensures Missing(g, s) >= 0.0
    ensures AddedSpend(g, s) <= TrueSpend(g, s)
  {
    TotalsOrdered(g.requests, s);
    SpentNonNegative(g.lost, s);
    SpentNonNegative(InFlight(g.pipe), s);
    SpentNonNegative(g.pipe.buffer, s);
    SpentNonNegative(g.pipe.channel, s);
  }

  lemma StepBelow(g: Gateway, a: Action, s: Scope)
    requires Shape(g) && CanDo(g, a) && Balanced(g, s) && Below(g, s)
    ensures Below(Do(g, a), s)
  {
    StepSums(g, a, s);
    MissingNonNegative(g, s);
  }

  lemma StepJustified(g: Gateway, a: Action, q: Request)
    requires Inv(g) && CanDo(g, a) && q in Do(g, a).requests
    ensures Justified(Do(g, a), q)
  {
    StepSums(g, a, User(q.user));
    StepSums(g, a, Key(q.key));
    if q in g.requests {
      assert Justified(g, q);
    } else if a.At? {
      var u, k := User(q.user), Key(q.key);
      assert Below(g, u) && Below(g, k);
      MissingNonNegative(g, u);
      MissingNonNegative(g, k);
      assert RequestOk(g.requests[a.i]) by { assert g.requests[a.i] in g.requests; }
    }
  }

  lemma StepInv(g: Gateway, a: Action)
    requires Inv(g) && CanDo(g, a)
    ensures Inv(Do(g, a))
  {
    StepShape(g, a);
    forall s ensures Balanced(Do(g, a), s) && Below(Do(g, a), s) {
      assert Balanced(g, s) && Below(g, s);
      StepSums(g, a, s);
      StepBelow(g, a, s);
    }
    forall q | q in Do(g, a).requests ensures Justified(Do(g, a), q) {
      StepJustified(g, a, q);
    }
  }

  // --- whole runs ---

  ghost predicate StepAt(states: seq<Gateway>, actions: seq<Action>, k: nat)
    requires k < |actions| < |states|
  {
    CanDo(states[k], actions[k]) && states[k + 1] == Do(states[k], actions[k])
  }

  ghost predicate IsRun(states: seq<Gateway>, actions: seq<Action>) {
    && |states| == |actions| + 1
    && forall k :: 0 <= k < |actions| ==> StepAt(states, actions, k)
  }

  /** A run may begin anywhere and go on with any action that can happen; the writer takes whatever steps the recorder
      allows it. */
  lemma RunsGoOn(states: seq<Gateway>, actions: seq<Action>, g: Gateway, a: Action, e: Event<UsageRecord>)
    requires IsRun(states, actions) && g == states[|states| - 1]
    ensures IsRun([g], []) && (CanDo(g, a) ==> IsRun(states + [Do(g, a)], actions + [a]))
    ensures Enabled(g.pipe, e) && (e.Recv? || e.Tick? || e.Shutdown? || e.DrainOne? || e.DrainEnd?) ==>
              CanDo(g, Write(e)) && Do(g, Write(e)).pipe == Next(g.pipe, e)
  {
    if CanDo(g, a) {
      var after, more := states + [Do(g, a)], actions + [a];
      forall k | 0 <= k < |more| ensures StepAt(after, more, k) {
        if k < |actions| { assert StepAt(states, actions, k); }
      }
    }
  }

  lemma BootInv(history: seq<UsageRecord>)
    requires CostsOk(history)
    ensures Inv(Boot(history))
  {
    forall s ensures Balanced(Boot(history), s) && Below(Boot(history), s) {
      SeedingIsExact(history, s);
    }
  }

  /** At the first request every counter, of scopes with or without earlier spend, is exactly right. */
  lemma BootIsRight(history: seq<UsageRecord>, s: Scope)
    ensures Counter(Boot(history), s) == TrueSpend(Boot(history), s) == Spent(history, s)
    ensures Shortfall(Boot(history), s) == 0.0
  {
    SeedingIsExact(history, s);
  }

  lemma {:induction false} RunInv(states: seq<Gateway>, actions: seq<Action>, n: nat)
    requires IsRun(states, actions) && Inv(states[0]) && n < |states|
    ensures Inv(states[n])
  {
    if n > 0 {
      RunInv(states, actions, n - 1);
      assert StepAt(states, actions, n - 1);
      StepInv(states[n - 1], actions[n - 1]);
    }
  }

  /** One step of a run, without what the rest of the run is. */
  lemma RunStep(states: seq<Gateway>, actions: seq<Action>, n: nat)
    requires IsRun(states, actions) && Inv(states[0]) && n < |actions|
    ensures Shape(states[n]) && CanDo(states[n], actions[n]) && states[n + 1] == Do(states[n], actions[n])
  {
    RunInv(states, actions, n);
    assert StepAt(states, actions, n);
  }

  /** At every moment of every run, no counter exceeds what was added to it, which never exceeds the true
      spend; what is not in the database is exactly what is on its way, lost, dropped or cancelled. */
  lemma NeverOvercounts(history: seq<UsageRecord>, states: seq<Gateway>, actions: seq<Action>, n: nat, s: Scope)
    requires CostsOk(history) && IsRun(states, actions) && states[0] == Boot(history) && n < |states|
    ensures Counter(states[n], s) <= AddedSpend(states[n], s) <= TrueSpend(states[n], s)
    ensures AddedSpend(states[n], s) == Spent(states[n].db, s) + Missing(states[n], s)
    ensures Missing(states[n], s) >= 0.0
  {
    BootInv(history);
    RunInv(states, actions, n);
    assert Balanced(states[n], s) && Below(states[n], s);
    MissingNonNegative(states[n], s);
  }

  /** A quota rejection, at any time after it, stands on true spend that has reached the grant or the cap. */
  lemma RejectionsAreJustified(history: seq<UsageRecord>, states: seq<Gateway>, actions: seq<Action>, n: nat, i: nat)
    requires CostsOk(history) && IsRun(states, actions) && states[0] == Boot(history) && n < |states|
    requires i < |states[n].requests| && states[n].requests[i].stage.Rejected?
    ensures
      var q := states[n].requests[i];
      || (q.stage.decision == UserExhausted(q.granted) && TrueSpend(states[n], User(q.user)) >= q.granted)
      || (q.cap.Some? && q.stage.decision == KeyCapReached(q.cap.value)
          && TrueSpend(states[n], Key(q.key)) >= q.cap.value)
  {
    BootInv(history);
    RunInv(states, actions, n);
    var q := states[n].requests[i];
    assert q in states[n].requests;
    assert Justified(states[n], q) && RequestOk(q);
  }

  // --- the checks ---

  /** A request that arrived, taken through its checks with nothing else happening. */
  ghost function Decided(g: Gateway, i: nat): Gateway
    requires i < |g.requests| && g.requests[i].stage.Arrived?
  {
    var h := Do(g, At(i, CheckUser));
    if h.requests[i].stage.UserPassed? then Do(h, At(i, CheckKey)) else h
  }

  /** It is decided as `CheckQuota` decides: the user's grant first, then the key's cap, if there is one. */
  lemma DecidedMeans(g: Gateway, i: nat)
    requires i < |g.requests| && g.requests[i].stage.Arrived?
    ensures var q := g.requests[i];
            Decided(g, i).requests[i].stage ==
            if Counter(g, User(q.user)) >= q.granted then Rejected(UserExhausted(q.granted))
            else if q.cap.Some? && Counter(g, Key(q.key)) >= q.cap.value then Rejected(KeyCapReached(q.cap.value))
            else Admitted
  {
  }

  /** At some moment before `n` the user's counter was below what the request goes by. */
  ghost predicate UserWasBelow(states: seq<Gateway>, n: nat, q: Request)
    requires n < |states|
  {
    exists k :: 0 <= k < n && Counter(states[k], User(q.user)) < q.granted
  }

  ghost predicate KeyWasBelow(states: seq<Gateway>, n: nat, q: Request)
    requires n < |states|
  {
    q.cap.Some? ==> exists k :: 0 <= k < n && Counter(states[k], Key(q.key)) < q.cap.value
  }

  predicate PastUserCheck(stage: Stage) {
    stage.UserPassed? || stage.Admitted? || stage.Ended? || stage.Completed?
  }

  predicate PastKeyCheck(stage: Stage) {
    stage.Admitted? || stage.Ended? || stage.Completed?
  }

  /** Nothing is let through unchecked: in every run, whatever was let past a check had a counter below its limit at
      the moment of that check. */
  lemma {:induction false} AdmittedWasChecked(states: seq<Gateway>, actions: seq<Action>, n: nat, i: nat)
    requires IsRun(states, actions) && Inv(states[0]) && states[0].requests == [] && n < |states|
    requires i < |states[n].requests|
    ensures var q := states[n].requests[i];
            && (!q.stage.Arrived? && !q.stage.Rejected? ==>
                  exists k :: 0 <= k < n && Counter(states[k], User(q.user)) < q.granted)
            && (!q.stage.Arrived? && !q.stage.Rejected? && !q.stage.UserPassed? && q.cap.Some? ==>
                  exists k :: 0 <= k < n && Counter(states[k], Key(q.key)) < q.cap.value)
    ensures PastUserCheck(states[n].requests[i].stage) ==> UserWasBelow(states, n, states[n].requests[i])
    ensures PastKeyCheck(states[n].requests[i].stage) ==> KeyWasBelow(states, n, states[n].requests[i])
  {
    if n > 0 {
      RunStep(states, actions, n - 1);
      if i < |states[n - 1].requests| {
        AdmittedWasChecked(states, actions, n - 1, i);
        CheckedStep(states, n - 1, i, actions[n - 1]);
      }
    }
  }

  lemma CheckedStep(states: seq<Gateway>, n: nat, i: nat, a: Action)
    requires n + 1 < |states| && Shape(states[n]) && CanDo(states[n], a) && states[n + 1] == Do(states[n], a)
    requires i < |states[n].requests|
    requires PastUserCheck(states[n].requests[i].stage) ==> UserWasBelow(states, n, states[n].requests[i])
    requires PastKeyCheck(states[n].requests[i].stage) ==> KeyWasBelow(states, n, states[n].requests[i])
    ensures i < |states[n + 1].requests|
    ensures var q := states[n + 1].requests[i];
            && (PastUserCheck(q.stage) ==> UserWasBelow(states, n + 1, q))
            && (PastKeyCheck(q.stage) ==> KeyWasBelow(states, n + 1, q))
  {
    var p, q := states[n].requests[i], states[n + 1].requests[i];
    assert q == p.(stage := q.stage);
    assert RequestOk(p) by { assert p in states[n].requests; }
    if PastUserCheck(p.stage) { assert UserWasBelow(states, n, p); }
    if PastKeyCheck(p.stage) { assert KeyWasBelow(states, n, p); }
  }

  // --- the exact shortfall ---

  /** The database read that a scope's next reset will apply. */
  predicate ReadsSumOf(a: Action, s: Scope) {
    match s
    case User(_) => a == ReadUsers
    case Key(_) => a == ReadKeys
  }

  /** The sum a running pass holds for a scope. */
  function Held(g: Gateway, s: Scope): Option<Money> {
    match g.pass
    case Idle => None
    case UsersRead(users) => if s in users then Some(users[s]) else None
    case Resetting(pending) => if s in pending then Some(pending[s]) else None
  }

  ghost predicate NoReset(actions: seq<Action>, from: nat, to: nat, s: Scope)
    requires from <= to <= |actions|
  {
    forall k :: from <= k < to ==> actions[k] != Reset(s)
  }

  lemma StepHeld(g: Gateway, a: Action, s: Scope)
    requires Shape(g) && CanDo(g, a)
    ensures ReadsSumOf(a, s) ==> Held(Do(g, a), s).None? || Held(Do(g, a), s) == Some(Spent(g.db, s))
    ensures !ReadsSumOf(a, s) ==> Held(Do(g, a), s).None? || Held(Do(g, a), s) == Held(g, s)
  {
  }

  /** A pass reads the sum of every user and every key that has a row, loses none of them on the way, and is not over
      before all of them have been applied. */
  lemma PassIsComplete(g: Gateway, r: UsageRecord, s: Scope)
    requires Shape(g)
    ensures CanDo(g, ReadUsers) && r in g.db && r.userId.Some? && s == User(r.userId.value) ==>
              Held(Do(g, ReadUsers), s) == Some(Spent(g.db, s))
    ensures CanDo(g, ReadKeys) && r in g.db && r.apiKeyId.Some? && s == Key(r.apiKeyId.value) ==>
              Held(Do(g, ReadKeys), s) == Some(Spent(g.db, s))
    ensures CanDo(g, ReadKeys) && s.User? ==> Held(Do(g, ReadKeys), s) == Held(g, s)
    ensures g.pass.Resetting? && Held(g, s).Some? ==> !CanDo(g, PassDone)
  {
  }

  lemma {:induction false} HeldAlong(states: seq<Gateway>, actions: seq<Action>, read: nat, k: nat, s: Scope)
    requires IsRun(states, actions) && Inv(states[0]) && read < k < |states|
    requires ReadsSumOf(actions[read], s) && forall j :: read < j < k ==> !ReadsSumOf(actions[j], s)
    ensures Held(states[k], s).None? || Held(states[k], s) == Some(Spent(states[read].db, s))
  {
    RunStep(states, actions, k - 1);
    StepHeld(states[k - 1], actions[k - 1], s);
    if k - 1 > read {
      HeldAlong(states, actions, read, k - 1, s);
      assert !ReadsSumOf(actions[k - 1], s);
    }
  }

  lemma {:induction false} ShortfallAlong(states: seq<Gateway>, actions: seq<Action>, from: nat, to: nat, s: Scope)
    requires IsRun(states, actions) && Inv(states[0]) && from <= to < |states| && NoReset(actions, from, to, s)
    ensures Shortfall(states[to], s) == Shortfall(states[from], s)
    ensures AddedSpend(states[from], s) <= AddedSpend(states[to], s)
    ensures states[to].history == states[from].history
  {
    if from < to {
      ShortfallAlong(states, actions, from, to - 1, s);
      RunStep(states, actions, to - 1);
      StepSums(states[to - 1], actions[to - 1], s);
    }
  }

  /** A counter trails what was added to it by exactly what was missing from the database when the sums last
      applied to it were read, plus what was added between that read and the reset. */
  lemma ExactShortfall(states: seq<Gateway>, actions: seq<Action>, read: nat, reset: nat, end: nat, s: Scope)
    requires IsRun(states, actions) && Inv(states[0]) && read < reset < end < |states|
    requires ReadsSumOf(actions[read], s) && forall j :: read < j < reset ==> !ReadsSumOf(actions[j], s)
    requires actions[reset] == Reset(s) && NoReset(actions, reset + 1, end, s)
    ensures Shortfall(states[end], s) ==
            Missing(states[read], s) + (AddedSpend(states[reset], s) - AddedSpend(states[read], s))
  {
    HeldAlong(states, actions, read, reset, s);
    ShortfallAlong(states, actions, reset + 1, end, s);
    RunInv(states, actions, read);
    assert Balanced(states[read], s);
    assert StepAt(states, actions, reset);
  }

  /** From boot until its first reset, a counter is everything that was added. */
  lemma ExactUntilReset(history: seq<UsageRecord>, states: seq<Gateway>, actions: seq<Action>, end: nat, s: Scope)
    requires CostsOk(history) && IsRun(states, actions) && states[0] == Boot(history) && end < |states|
    requires NoReset(actions, 0, end, s)
    ensures Counter(states[end], s) == AddedSpend(states[end], s)
  {
    BootInv(history);
    BootIsRight(history, s);
    ShortfallAlong(states, actions, 0, end, s);
  }

  /** The sums a pass holds for the scope were read last at `read`. */
  ghost predicate LastRead(actions: seq<Action>, read: nat, k: nat, s: Scope)
    requires k <= |actions|
  {
    read < k && ReadsSumOf(actions[read], s) && forall j :: read < j < k ==> !ReadsSumOf(actions[j], s)
  }

  /** Whatever a pass holds, it has read in this run. */
  lemma {:induction false} HeldWasRead(states: seq<Gateway>, actions: seq<Action>, k: nat, s: Scope)
    requires IsRun(states, actions) && Inv(states[0]) && states[0].pass.Idle? && k < |states|
    requires Held(states[k], s).Some?
    ensures exists read: nat :: LastRead(actions, read, k, s)
  {
    if k > 0 {
      RunStep(states, actions, k - 1);
      StepHeld(states[k - 1], actions[k - 1], s);
      if ReadsSumOf(actions[k - 1], s) {
        assert LastRead(actions, k - 1, k, s);
      } else {
        HeldWasRead(states, actions, k - 1, s);
        var read: nat :| LastRead(actions, read, k - 1, s);
        assert LastRead(actions, read, k, s);
      }
    }
  }

  /** `reset` is the scope's last reset before `end`. */
  ghost predicate LastReset(actions: seq<Action>, reset: nat, end: nat, s: Scope)
    requires end <= |actions|
  {
    reset < end && actions[reset] == Reset(s) && NoReset(actions, reset + 1, end, s)
  }

  lemma {:induction false} SomeLastReset(actions: seq<Action>, end: nat, s: Scope)
    requires end <= |actions| && !NoReset(actions, 0, end, s)
    ensures exists reset: nat :: LastReset(actions, reset, end, s)
  {
    if actions[end - 1] == Reset(s) {
      assert LastReset(actions, end - 1, end, s);
    } else {
      SomeLastReset(actions, end - 1, s);
      var reset: nat :| LastReset(actions, reset, end - 1, s);
      assert LastReset(actions, reset, end, s);
    }
  }

  /** At every moment of every run from boot: a counter is either exact, because it has not been reset since, or it
      has been, by sums this run has read, and trails by exactly what they missed. */
  lemma ShortfallAlways(history: seq<UsageRecord>, states: seq<Gateway>, actions: seq<Action>, end: nat, s: Scope)
    requires CostsOk(history) && IsRun(states, actions) && states[0] == Boot(history) && end < |states|
    ensures NoReset(actions, 0, end, s) ==> Shortfall(states[end], s) == 0.0
    ensures !NoReset(actions, 0, end, s) ==>
              exists read: nat, reset: nat :: LastReset(actions, reset, end, s) && LastRead(actions, read, reset, s)
                && Shortfall(states[end], s) ==
                   Missing(states[read], s) + (AddedSpend(states[reset], s) - AddedSpend(states[read], s))
  {
    BootInv(history);
    if NoReset(actions, 0, end, s) {
      ExactUntilReset(history, states, actions, end, s);
    } else {
      SomeLastReset(actions, end, s);
      var reset: nat :| LastReset(actions, reset, end, s);
      assert StepAt(states, actions, reset);
      HeldWasRead(states, actions, reset, s);
      var read: nat :| LastRead(actions, read, reset, s);
      ExactShortfall(states, actions, read, reset, end, s);
    }
  }

  // --- how soft the limit is ---

  /** A request of `u` that has passed the user check but is not on the user's counter yet. */
  predicate InFlightOf(q: Request, u: Uuid) {
    q.user == u && (q.stage.UserPassed? || q.stage.Admitted? || (q.stage.Completed? && !q.stage.userAdded))
  }

  /** A request of `u` past the user check. */
  predicate PastCheck(q: Request, u: Uuid) {
    q.user == u && (q.stage.UserPassed? || q.stage.Admitted? || q.stage.Completed?)
  }

  /** The user's requests that still have to pass the check go by snapshots that grant no more than this. What
      earlier requests were checked against does not matter. */
  ghost predicate GrantedAtMost(g: Gateway, u: Uuid, grant: Money) {
    forall q :: q in g.requests && q.user == u && q.stage.Arrived? ==> q.granted <= grant
  }

  /** What can still happen, after the crossing, to a request that was not in flight at the crossing. */
  predicate Frozen(before: Request, after: Request, u: Uuid) {
    && after.user == before.user
    && (before.user == u && !InFlightOf(before, u) ==>
          if before.stage.Completed? then
            after.stage.Completed? && after.stage.userAdded && after.stage.record == before.stage.record
          else
            !PastCheck(after, u))
  }

  /** Every request is frozen or was in flight; requests that came later do not get past the check. */
  ghost predicate Contained(before: seq<Request>, after: seq<Request>, u: Uuid) {
    && |before| <= |after|
    && (forall i :: 0 <= i < |before| ==> Frozen(before[i], after[i], u))
    && (forall i :: |before| <= i < |after| ==> !PastCheck(after[i], u))
  }

  lemma StepContained(before: seq<Request>, g: Gateway, a: Action, u: Uuid, grant: Money)
    requires Shape(g) && CanDo(g, a) && Contained(before, g.requests, u) && GrantedAtMost(g, u, grant)
    requires a.At? && a.move.CheckUser? ==> Counter(g, User(u)) >= grant
    ensures Contained(before, Do(g, a).requests, u)
  {
    if a.At? {
      assert g.requests[a.i] in g.requests;
    }
  }

  /** The costs, as of `after`, of the requests that were in flight in `before`. */
  function InFlightCost(before: seq<Request>, after: seq<Request>, u: Uuid): Money
    requires |before| <= |after|
  {
    if before == [] then 0.0
    else
      var n := |before| - 1;
      InFlightCost(before[..n], after, u) + if InFlightOf(before[n], u) then Of(Incurred, after[n], User(u)) else 0.0
  }

  lemma {:induction false} InFlightCostPrefix(before: seq<Request>, after: seq<Request>, n: nat, u: Uuid)
    requires |before| <= n <= |after|
    ensures InFlightCost(before, after[..n], u) == InFlightCost(before, after, u)
    decreases |before|
  {
    if before != [] {
      InFlightCostPrefix(before[..|before| - 1], after, n, u);
    }
  }

  ghost predicate AllOk(qs: seq<Request>) {
    forall q :: q in qs ==> RequestOk(q)
  }

  /** Of everything a user incurs, only the requests in flight at the crossing are not yet counted there. */
  lemma {:induction false} OnlyInFlightAdds(before: seq<Request>, after: seq<Request>, u: Uuid)
    requires Contained(before, after, u) && AllOk(before) && AllOk(after)
    ensures Total(Incurred, after, User(u)) == Total(Counted, before, User(u)) + InFlightCost(before, after, u)
    decreases |after|
  {
    var n := |after| - 1;
    if |after| > |before| {
      assert after[n] in after;
      OnlyInFlightAdds(before, after[..n], u);
      InFlightCostPrefix(before, after, n, u);
    } else if after != [] {
      assert after[n] in after && before[n] in before;
      OnlyInFlightAdds(before[..n], after[..n], u);
      InFlightCostPrefix(before[..n], after, n, u);
    }
  }

  lemma AboveAlong(states: seq<Gateway>, actions: seq<Action>, from: nat, to: nat, u: Uuid, grant: Money)
    requires IsRun(states, actions) && Inv(states[0]) && from <= to < |states|
    requires NoReset(actions, from, to, User(u)) && Counter(states[from], User(u)) >= grant
    ensures Counter(states[to], User(u)) >= grant
  {
    ShortfallAlong(states, actions, from, to, User(u));
  }

  lemma {:induction false} ContainedAlong(
      states: seq<Gateway>, actions: seq<Action>, cross: nat, to: nat, u: Uuid, grant: Money)
    requires IsRun(states, actions) && Inv(states[0]) && cross < to < |states|
    requires Counter(states[cross], User(u)) < grant <= Counter(states[cross + 1], User(u))
    requires NoReset(actions, cross, to, User(u))
    requires forall k :: cross <= k < to ==> GrantedAtMost(states[k], u, grant)
    ensures Contained(states[cross].requests, states[to].requests, u)
  {
    RunStep(states, actions, to - 1);
    if to > cross + 1 {
      ContainedAlong(states, actions, cross, to - 1, u, grant);
      AboveAlong(states, actions, cross + 1, to - 1, u, grant);
    }
    StepContained(states[cross].requests, states[to - 1], actions[to - 1], u, grant);
  }

  /** Once a user's counter crosses what is granted, and until it is reset, nobody else gets past the user
      check, and the true overdraft stays strictly below the cost of the requests that were in flight at the
      crossing (plus the shortfall the counter already had there). */
  lemma OverdraftBound(
      states: seq<Gateway>, actions: seq<Action>, cross: nat, end: nat, u: Uuid, grant: Money)
    requires IsRun(states, actions) && Inv(states[0]) && cross < end < |states|
    requires Counter(states[cross], User(u)) < grant <= Counter(states[cross + 1], User(u))
    requires NoReset(actions, cross, end, User(u))
    requires forall k :: cross <= k < end ==> GrantedAtMost(states[k], u, grant)
    ensures Counter(states[end], User(u)) >= grant
    ensures |states[cross].requests| <= |states[end].requests|
    ensures forall i :: 0 <= i < |states[end].requests| && PastCheck(states[end].requests[i], u) ==>
              i < |states[cross].requests| && PastCheck(states[cross].requests[i], u)
    ensures TrueSpend(states[end], User(u)) - grant <
            InFlightCost(states[cross].requests, states[end].requests, u) + Shortfall(states[cross], User(u))
  {
    ContainedAlong(states, actions, cross, end, u, grant);
    AboveAlong(states, actions, cross + 1, end, u, grant);
    var before, after := states[cross].requests, states[end].requests;
    RunInv(states, actions, cross);
    RunInv(states, actions, end);
    OnlyInFlightAdds(before, after, u);
    ShortfallAlong(states, actions, cross, end, User(u));
  }

  /** In a run from boot in which the user's counter is not reset, whatever the user had spent before, the overdraft
      is strictly below the cost of the requests in flight at the crossing. */
  lemma OverdraftFromBoot(
      history: seq<UsageRecord>, states: seq<Gateway>, actions: seq<Action>, cross: nat, end: nat, u: Uuid,
      grant: Money)
    requires CostsOk(history) && IsRun(states, actions) && states[0] == Boot(history) && cross < end < |states|
    requires NoReset(actions, 0, end, User(u))
    requires Counter(states[cross], User(u)) < grant <= Counter(states[cross + 1], User(u))
    requires forall k :: cross <= k < end ==> GrantedAtMost(states[k], u, grant)
    ensures |states[cross].requests| <= |states[end].requests|
    ensures TrueSpend(states[end], User(u)) - grant
            < InFlightCost(states[cross].requests, states[end].requests, u)
  {
    BootInv(history);
    ExactUntilReset(history, states, actions, cross, User(u));
    OverdraftBound(states, actions, cross, end, u, grant);
  }

  // --- the code of one completion ---

  /** The three steps of a request whose response is complete, nothing else happening in between. */
  ghost predicate CanRecord(g: Gateway, i: nat) {
    i < |g.requests| && g.requests[i].stage.Completed?
    && g.requests[i].stage == Completed(g.requests[i].stage.record, false, false, Pending)
  }

  ghost function Recorded(g: Gateway, i: nat): Gateway
    requires CanRecord(g, i)
  {
    Do(Do(Do(g, At(i, AddUser)), At(i, AddKey)), At(i, Enqueue))
  }

  /** They leave what `RecordUsage` leaves: both counters charged, and the record in the channel if there was room. */
  lemma RecordedMeans(g: Gateway, i: nat)
    requires CanRecord(g, i) && g.pipe.connected
    ensures var q, h := g.requests[i], Recorded(g, i);
            var record, accepted := q.stage.record, Accepts(g.pipe);
            && h.counters == Charge(Charge(g.counters, User(q.user), record.cost), Key(q.key), record.cost)
            && h.pipe == g.pipe.(channel := if accepted then g.pipe.channel + [record] else g.pipe.channel)
            && h.requests ==
               g.requests[i := q.(stage := Completed(record, true, true, if accepted then Queued else Dropped))]
            && h == g.(counters := h.counters, pipe := h.pipe, requests := h.requests)
  {
    var q := g.requests[i];
    var g1 := Do(g, At(i, AddUser));
    var g2 := Do(g1, At(i, AddKey));
    assert g1.requests[i] == q.(stage := q.stage.(userAdded := true));
    assert g2.requests[i] == q.(stage := q.stage.(userAdded := true, keyAdded := true));
    var fate := if Accepts(g.pipe) then Queued else Dropped;
    assert Do(g2, At(i, Enqueue)).requests == g.requests[i := q.(stage := Completed(q.stage.record, true, true, fate))];
  }

  /** The counter and the channel are those of `g`, where request `i` has just completed. */
  ghost predicate Stands(g: Gateway, i: nat, counter: MemoryCounter, channel: Channel<UsageRecord>,
                         completion: Completion, userId: Uuid, apiKeyId: Uuid)
    reads counter, channel
  {
    && CanRecord(g, i) && g.pipe.connected
    && g.requests[i].user == userId && g.requests[i].key == apiKeyId
    && g.requests[i].stage.record == RecordOf(completion, userId, apiKeyId)
    && counter.values == g.counters
    && channel.queue == g.pipe.channel && channel.closed == (g.pipe.phase == Exited)
  }

  /** `record_usage`, its awaits undisturbed: exactly the moves AddUser, AddKey and Enqueue, wherever they are taken. */
  method RecordUsage(
      counter: MemoryCounter, channel: Channel<UsageRecord>, completion: Completion, userId: Uuid, apiKeyId: Uuid,
      ghost g: Gateway, ghost i: nat)
    returns (accepted: bool)
    modifies counter, channel
    ensures
      var record := RecordOf(completion, userId, apiKeyId);
      && counter.values == Charge(Charge(old(counter.values), User(userId), record.cost), Key(apiKeyId), record.cost)
      && (accepted <==> !channel.closed && |old(channel.queue)| < CHANNEL_CAPACITY)
      && channel.queue == (if accepted then old(channel.queue) + [record] else old(channel.queue))
    ensures old(Stands(g, i, counter, channel, completion, userId, apiKeyId)) ==>
              && counter.values == Recorded(g, i).counters && channel.queue == Recorded(g, i).pipe.channel
              && (accepted <==> Recorded(g, i).requests[i].stage.fate == Queued)
  {
    if Stands(g, i, counter, channel, completion, userId, apiKeyId) { RecordedMeans(g, i); }
    var record := RecordOf(completion, userId, apiKeyId);
    if record.cost.Some? {
      counter.Add(User(userId), record.cost.value);
      counter.Add(Key(apiKeyId), record.cost.value);
    }
    accepted := channel.TrySend(record);
  }
}
