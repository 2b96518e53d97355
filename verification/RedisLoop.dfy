/** The spend accounting loop with its counters in Redis: every command to Redis is a step of its own, between the
    steps of the gateway that send it and that take its reply (src/quota/counter.rs, src/proxy/router.rs). */
module RedisLoop {
  import opened Basics
  import opened Usage
  import opened Quota
  import opened Recorder
  import opened SpendLoop

  // --- state ---

  /** The gateway's own counters are the shadow. `answers` are the GETs Redis has answered whose replies are under way,
      by request; `incrs` the INCRBYFLOATs it has not executed, by request; `setting` the SET under way. */
  datatype Node = Node(
    g: Gateway,
    redis: Counters,
    answers: map<nat, Money>,
    incrs: map<nat, Scope>,
    setting: Option<(Scope, Money)>)

  /** A process over a database that holds `stored`, after earlier processes that lost `lost` on the way. Redis may
      still hold their counters; seeding overwrites those whose SET arrived. The shadow is always seeded. */
  function Booted(stored: seq<UsageRecord>, lost: seq<UsageRecord>, found: Counters, arrived: set<Scope>): Node {
    var g := Boot(stored);
    var seeded := map s | s in g.counters && s in arrived :: g.counters[s];
    Node(g.(history := stored + lost, lost := lost), found + seeded, map[], map[], None)
  }

  // --- steps ---

  /** What happens next: a step of the gateway that needs nothing from Redis (the additions and resets of the shadow
      among them, which send a command); Redis executes a command; a reply arrives, or none does. */
  datatype Step =
    | Local(action: Action)
    | GetRuns(i: nat)
    | Reply(i: nat)
    | NoReply(i: nat)
    | IncrRuns(i: nat)
    | IncrLost(i: nat)
    | SetRuns
    | SetLost

  /** The request waits for a counter. */
  predicate Checking(q: Request) {
    q.stage.Arrived? || q.stage.UserPassed?
  }

  function CheckedScope(q: Request): Scope {
    if q.stage.Arrived? then User(q.user) else Key(q.key)
  }

  function CheckOf(q: Request): Move {
    if q.stage.Arrived? then CheckUser else CheckKey
  }

  /** A request goes on only when its INCRBYFLOAT has run or never will, a pass only when its SET has. */
  ghost predicate Can(n: Node, e: Step) {
    match e
    case Local(a) =>
      && CanDo(n.g, a)
      && (a.At? ==> !a.move.CheckUser? && !a.move.CheckKey? && (a.i in n.incrs ==> a.move.Cancel?))
      && (a.Reset? || a.PassDone? ==> n.setting.None?)
    case GetRuns(i) => i < |n.g.requests| && Checking(n.g.requests[i])
    case Reply(i) => i < |n.g.requests| && Checking(n.g.requests[i]) && i in n.answers
    case NoReply(i) => i < |n.g.requests| && Checking(n.g.requests[i])
    case IncrRuns(i) => i in n.incrs && i < |n.g.requests|
    case IncrLost(i) => i in n.incrs
    case SetRuns => n.setting.Some?
    case SetLost => n.setting.Some?
  }

  function CostOf(q: Request): Money {
    if q.stage.Completed? then q.stage.record.cost.GetOr(0.0) else 0.0
  }

  predicate Adds(a: Action) {
    a.At? && (a.move.AddUser? || a.move.AddKey?)
  }

  /** The command sent by an addition to the shadow. */
  function Sent(n: Node, a: Action): map<nat, Scope>
    requires a.At? ==> a.i < |n.g.requests|
  {
    if Adds(a) && n.g.requests[a.i].stage.Completed? && n.g.requests[a.i].stage.record.cost.Some? then
      var q := n.g.requests[a.i];
      n.incrs[a.i := if a.move.AddUser? then User(q.user) else Key(q.key)]
    else n.incrs
  }

  /** The reply is known now, also to the shadow. */
  function Warmed(n: Node, i: nat): Gateway
    requires i < |n.g.requests| && i in n.answers
  {
    n.g.(counters := n.g.counters[CheckedScope(n.g.requests[i]) := n.answers[i]])
  }

  function Take(n: Node, e: Step): Node
    requires Can(n, e)
  {
    match e
    case Local(a) =>
      n.(g := Do(n.g, a),
         incrs := Sent(n, a),
         setting := if a.Reset? then Some((a.scope, n.g.pass.pending[a.scope])) else n.setting)
    case GetRuns(i) => n.(answers := n.answers[i := CounterGet(n.redis, CheckedScope(n.g.requests[i]))])
    case Reply(i) => n.(g := Do(Warmed(n, i), At(i, CheckOf(n.g.requests[i]))), answers := n.answers - {i})
    case NoReply(i) => n.(g := Do(n.g, At(i, CheckOf(n.g.requests[i]))), answers := n.answers - {i})
    case IncrRuns(i) =>
      n.(redis := CounterAdd(n.redis, n.incrs[i], CostOf(n.g.requests[i])), incrs := n.incrs - {i})
    case IncrLost(i) => n.(incrs := n.incrs - {i})
    case SetRuns => n.(redis := n.redis[n.setting.value.0 := n.setting.value.1], setting := None)
    case SetLost => n.(setting := None)
  }

  // --- the counter's calls as steps ---

  /** `add`, undisturbed: the shadow advances, then Redis does if the command runs. */
  lemma AddIsTwoSteps(n: Node, i: nat, runs: bool)
    requires Can(n, Local(At(i, AddUser))) && n.g.requests[i].stage.record.cost.Some?
    ensures var user, cost := User(n.g.requests[i].user), n.g.requests[i].stage.record.cost.value;
            var sent, e := Take(n, Local(At(i, AddUser))), if runs then IncrRuns(i) else IncrLost(i);
            && Can(sent, e)
            && Take(sent, e).g.counters == CounterAdd(n.g.counters, user, cost)
            && Take(sent, e).redis == (if runs then CounterAdd(n.redis, user, cost) else n.redis)
            && Take(sent, e).incrs == n.incrs
  {
    assert n.incrs[i := User(n.g.requests[i].user)] - {i} == n.incrs;
  }

  /** `get`, undisturbed: the check sees what Redis holds, and the shadow keeps it. */
  lemma GetIsTwoSteps(n: Node, i: nat)
    requires Can(n, GetRuns(i)) && i !in n.answers
    ensures var scope, run := CheckedScope(n.g.requests[i]), Take(n, GetRuns(i));
            && Can(run, Reply(i))
            && Take(run, Reply(i)).g.counters == n.g.counters[scope := CounterGet(n.redis, scope)]
            && Take(run, Reply(i)).redis == n.redis && Take(run, Reply(i)).answers == n.answers
            && (Take(run, Reply(i)).g.requests[i].stage.Rejected? <==>
                  if n.g.requests[i].stage.Arrived? then CounterGet(n.redis, scope) >= n.g.requests[i].granted
                  else n.g.requests[i].cap.Some? && CounterGet(n.redis, scope) >= n.g.requests[i].cap.value)
  {
    assert n.answers[i := CounterGet(n.redis, CheckedScope(n.g.requests[i]))] - {i} == n.answers;
  }

  /** `reset`, undisturbed: the shadow takes the sum, then Redis does if the command runs. */
  lemma ResetIsTwoSteps(n: Node, s: Scope, runs: bool)
    requires Can(n, Local(Reset(s)))
    ensures var value := n.g.pass.pending[s];
            var sent, e := Take(n, Local(Reset(s))), if runs then SetRuns else SetLost;
            && Can(sent, e)
            && Take(sent, e).g.counters == n.g.counters[s := value]
            && Take(sent, e).redis == (if runs then n.redis[s := value] else n.redis)
            && Take(sent, e).setting.None?
  {
  }

  // --- what Redis is owed ---

  /** The costs that the shadow has counted and Redis may still count. */
  function Owed(qs: seq<Request>, incrs: map<nat, Scope>, s: Scope): Money {
    if qs == [] then 0.0
    else
      var n := |qs| - 1;
      Owed(qs[..n], incrs, s) + if n in incrs && incrs[n] == s then CostOf(qs[n]) else 0.0
  }

  lemma {:induction false} OwedUpdate(qs: seq<Request>, incrs: map<nat, Scope>, i: nat, q: Request, s: Scope)
    requires i < |qs| && (i in incrs ==> CostOf(q) == CostOf(qs[i]))
    ensures Owed(qs[i := q], incrs, s) == Owed(qs, incrs, s)
  {
    var n := |qs| - 1;
    if i == n {
      assert qs[i := q][..n] == qs[..n];
    } else {
      assert qs[i := q][..n] == qs[..n][i := q];
      OwedUpdate(qs[..n], incrs, i, q, s);
    }
  }

  lemma OwedSnoc(qs: seq<Request>, incrs: map<nat, Scope>, q: Request, s: Scope)
    requires |qs| !in incrs
    ensures Owed(qs + [q], incrs, s) == Owed(qs, incrs, s)
  {
    assert (qs + [q])[..|qs|] == qs;
  }

  lemma {:induction false} OwedSent(qs: seq<Request>, incrs: map<nat, Scope>, i: nat, scope: Scope, s: Scope)
    requires i !in incrs
    ensures Owed(qs, incrs[i := scope], s) ==
            Owed(qs, incrs, s) + if i < |qs| && scope == s then CostOf(qs[i]) else 0.0
  {
    if qs != [] { OwedSent(qs[..|qs| - 1], incrs, i, scope, s); }
  }

  lemma OwedSettled(qs: seq<Request>, incrs: map<nat, Scope>, i: nat, s: Scope)
    requires i in incrs && i < |qs|
    ensures Owed(qs, incrs, s) == Owed(qs, incrs - {i}, s) + if incrs[i] == s then CostOf(qs[i]) else 0.0
  {
    assert incrs == (incrs - {i})[i := incrs[i]];
    OwedSent(qs, incrs - {i}, i, incrs[i], s);
  }

  // --- invariants ---

  /** A command belongs to a request that has added its cost to the shadow and has not queued its record. */
  ghost predicate Outstanding(q: Request, s: Scope) {
    && q.stage.Completed? && (q.stage.fate == Pending || q.stage.fate == Cancelled)
    && ((s == User(q.user) && q.stage.userAdded) || (s == Key(q.key) && q.stage.keyAdded))
  }

  ghost predicate IncrsOk(qs: seq<Request>, incrs: map<nat, Scope>) {
    forall i :: i in incrs ==> i < |qs| && Outstanding(qs[i], incrs[i])
  }

  ghost predicate ReadsOk(n: Node) {
    forall i :: i in n.answers ==>
      && i < |n.g.requests| && Checking(n.g.requests[i])
      && n.answers[i] <= AddedSpend(n.g, CheckedScope(n.g.requests[i]))
  }

  /** What is in Redis, and every sum on its way there, leaves room for what Redis may still add. */
  ghost predicate Within(n: Node, s: Scope) {
    var owed := Owed(n.g.requests, n.incrs, s);
    && CounterGet(n.redis, s) + owed <= AddedSpend(n.g, s)
    && (Held(n.g, s).Some? ==> Held(n.g, s).value + owed <= AddedSpend(n.g, s))
    && (n.setting.Some? && n.setting.value.0 == s ==> n.setting.value.1 + owed <= AddedSpend(n.g, s))
  }

  ghost predicate Sound(n: Node) {
    Inv(n.g) && IncrsOk(n.g.requests, n.incrs) && ReadsOk(n) && forall s :: Within(n, s)
  }

  lemma {:induction false} OwedIsUnrecorded(qs: seq<Request>, incrs: map<nat, Scope>, s: Scope)
    requires forall i :: i in incrs && i < |qs| ==> Outstanding(qs[i], incrs[i])
    requires forall q :: q in qs ==> RequestOk(q)
    ensures 0.0 <= Owed(qs, incrs, s) <= Total(Unrecorded, qs, s)
  {
    if qs != [] {
      var n := |qs| - 1;
      assert qs[n] in qs;
      OwedIsUnrecorded(qs[..n], incrs, s);
    }
  }

  /** A sum just read from the database lacks all that Redis may still add. */
  lemma StoredWithin(n: Node, s: Scope)
    requires Inv(n.g) && IncrsOk(n.g.requests, n.incrs)
    ensures Spent(n.g.db, s) + Owed(n.g.requests, n.incrs, s) <= AddedSpend(n.g, s)
  {
    assert Balanced(n.g, s);
    OwedIsUnrecorded(n.g.requests, n.incrs, s);
    SpentNonNegative(n.g.lost, s);
    SpentNonNegative(InFlight(n.g.pipe), s);
    SpentNonNegative(n.g.pipe.buffer, s);
    SpentNonNegative(n.g.pipe.channel, s);
  }

  // --- one step ---

  /** How a step changes what Redis is owed. */
  lemma OwedAfter(n: Node, a: Action, s: Scope)
    requires IncrsOk(n.g.requests, n.incrs) && Can(n, Local(a))
    ensures Owed(Do(n.g, a).requests, Sent(n, a), s) ==
            Owed(n.g.requests, n.incrs, s)
            + if Sent(n, a) != n.incrs && Sent(n, a)[a.i] == s then CostOf(n.g.requests[a.i]) else 0.0
  {
    match a
    case Arrive(user, key, granted, cap) =>
      OwedSnoc(n.g.requests, n.incrs, Request(user, key, granted, cap, Arrived), s);
    case At(i, move) =>
      var after := Do(n.g, a).requests;
      OwedUpdate(n.g.requests, n.incrs, i, after[i], s);
      if Adds(a) && n.g.requests[i].stage.record.cost.Some? { OwedSent(after, n.incrs, i, Sent(n, a)[i], s); }
    case _ =>
  }

  /** How a step changes what was added. */
  lemma AddedAfter(g: Gateway, a: Action, s: Scope)
    requires Shape(g) && CanDo(g, a)
    ensures AddedSpend(Do(g, a), s) - AddedSpend(g, s) == if a.At? then Counter(Do(g, a), s) - Counter(g, s) else 0.0
  {
    match a
    case Arrive(user, key, granted, cap) =>
      TotalSnoc(Counted, g.requests, Request(user, key, granted, cap, Arrived), s);
    case At(_, _) => StepSums(g, a, s);
    case _ =>
  }

  /** A step of the gateway owes Redis exactly what it adds. */
  lemma LocalOwed(n: Node, a: Action, s: Scope)
    requires Sound(n) && Can(n, Local(a))
    ensures Owed(Do(n.g, a).requests, Sent(n, a), s) - Owed(n.g.requests, n.incrs, s)
            == AddedSpend(Do(n.g, a), s) - AddedSpend(n.g, s)
  {
    OwedAfter(n, a, s);
    AddedAfter(n.g, a, s);
  }

  lemma LocalIncrs(n: Node, a: Action)
    requires Sound(n) && Can(n, Local(a))
    ensures IncrsOk(Do(n.g, a).requests, Sent(n, a))
  {
  }

  lemma LocalReads(n: Node, a: Action)
    requires Sound(n) && Can(n, Local(a))
    ensures ReadsOk(Take(n, Local(a)))
  {
    var h := Do(n.g, a);
    forall i | i in n.answers
      ensures i < |h.requests| && Checking(h.requests[i])
      ensures n.answers[i] <= AddedSpend(h, CheckedScope(h.requests[i]))
    {
      StepSums(n.g, a, CheckedScope(n.g.requests[i]));
    }
  }

  lemma LocalWithin(n: Node, a: Action, s: Scope)
    requires Sound(n) && Can(n, Local(a))
    ensures Within(Take(n, Local(a)), s)
  {
    assert Within(n, s);
    LocalOwed(n, a, s);
    StepHeld(n.g, a, s);
    if ReadsSumOf(a, s) { StoredWithin(n, s); }
  }

  lemma LocalSound(n: Node, a: Action)
    requires Sound(n) && Can(n, Local(a))
    ensures Sound(Take(n, Local(a)))
  {
    StepInv(n.g, a);
    LocalIncrs(n, a);
    LocalReads(n, a);
    forall s ensures Within(Take(n, Local(a)), s) {
      LocalWithin(n, a, s);
    }
  }

  /** A check changes no sum, whatever the shadow says. */
  lemma CheckGap(n: Node, g: Gateway, i: nat, s: Scope)
    requires Sound(n) && i < |n.g.requests| && Checking(n.g.requests[i]) && g == n.g.(counters := g.counters)
    ensures var h := Do(g, At(i, CheckOf(n.g.requests[i])));
            AddedSpend(h, s) == AddedSpend(n.g, s)
            && Owed(h.requests, n.incrs, s) == Owed(n.g.requests, n.incrs, s)
  {
    var h := Do(g, At(i, CheckOf(n.g.requests[i])));
    TotalUpdate(Counted, g.requests, i, h.requests[i], s);
    OwedUpdate(g.requests, n.incrs, i, h.requests[i], s);
  }

  lemma CheckSound(n: Node, g: Gateway, i: nat)
    requires Sound(n) && i < |n.g.requests| && Checking(n.g.requests[i])
    requires g == n.g.(counters := g.counters) && Inv(g)
    ensures Sound(n.(g := Do(g, At(i, CheckOf(n.g.requests[i]))), answers := n.answers - {i}))
  {
    var a := At(i, CheckOf(n.g.requests[i]));
    var m := n.(g := Do(g, a), answers := n.answers - {i});
    StepInv(g, a);
    forall s ensures Within(m, s) && AddedSpend(m.g, s) == AddedSpend(n.g, s) {
      assert Within(n, s);
      CheckGap(n, g, i, s);
    }
  }

  lemma WarmedInv(n: Node, i: nat)
    requires Sound(n) && i < |n.g.requests| && i in n.answers
    ensures Inv(Warmed(n, i))
  {
    forall s ensures Balanced(Warmed(n, i), s) && Below(Warmed(n, i), s) {
      assert Balanced(n.g, s) && Below(n.g, s);
    }
    forall q | q in n.g.requests ensures Justified(Warmed(n, i), q) {
      assert Justified(n.g, q);
    }
  }

  lemma CommandSound(n: Node, e: Step)
    requires Sound(n) && Can(n, e) && !e.Local? && !e.Reply? && !e.NoReply?
    ensures Sound(Take(n, e))
  {
    var m := Take(n, e);
    forall s ensures Within(m, s) {
      assert Within(n, s);
      if e.IncrRuns? || e.IncrLost? {
        OwedSettled(n.g.requests, n.incrs, e.i, s);
        assert RequestOk(n.g.requests[e.i]) by { assert n.g.requests[e.i] in n.g.requests; }
      }
    }
    if e.GetRuns? {
      var scope := CheckedScope(n.g.requests[e.i]);
      assert Within(n, scope);
      OwedIsUnrecorded(n.g.requests, n.incrs, scope);
    }
  }

  lemma StepSound(n: Node, e: Step)
    requires Sound(n) && Can(n, e)
    ensures Sound(Take(n, e))
  {
    match e
    case Local(a) => LocalSound(n, a);
    case Reply(i) =>
      WarmedInv(n, i);
      CheckSound(n, Warmed(n, i), i);
    case NoReply(i) => CheckSound(n, n.g, i);
    case _ => CommandSound(n, e);
  }

  // --- whole runs ---

  ghost predicate Follows(nodes: seq<Node>, steps: seq<Step>, k: nat)
    requires k < |steps| < |nodes|
  {
    Can(nodes[k], steps[k]) && nodes[k + 1] == Take(nodes[k], steps[k])
  }

  ghost predicate IsRedisRun(nodes: seq<Node>, steps: seq<Step>) {
    |nodes| == |steps| + 1 && forall k :: 0 <= k < |steps| ==> Follows(nodes, steps, k)
  }

  /** A run may begin anywhere and go on with any step that can happen; a request waiting for a counter may always have
      its GET run, and then get the reply or not. */
  lemma RunsGoOn(nodes: seq<Node>, steps: seq<Step>, n: Node, e: Step, i: nat)
    requires IsRedisRun(nodes, steps) && n == nodes[|nodes| - 1]
    ensures IsRedisRun([n], []) && (Can(n, e) ==> IsRedisRun(nodes + [Take(n, e)], steps + [e]))
    ensures i < |n.g.requests| && (n.g.requests[i].stage.Arrived? || n.g.requests[i].stage.UserPassed?) ==>
              && Can(n, GetRuns(i)) && Can(n, NoReply(i)) && Can(Take(n, GetRuns(i)), Reply(i))
  {
    if Can(n, e) {
      var after, more := nodes + [Take(n, e)], steps + [e];
      forall k | 0 <= k < |more| ensures Follows(after, more, k) {
        if k < |steps| { assert Follows(nodes, steps, k); }
      }
    }
  }

  /** What earlier processes left in Redis is no more than what they spent. */
  ghost predicate Honest(stored: seq<UsageRecord>, lost: seq<UsageRecord>, found: Counters) {
    CostsOk(stored) && CostsOk(lost) && forall s :: CounterGet(found, s) <= Spent(stored + lost, s)
  }

  lemma BootSound(stored: seq<UsageRecord>, lost: seq<UsageRecord>, found: Counters, arrived: set<Scope>)
    requires Honest(stored, lost, found)
    ensures Sound(Booted(stored, lost, found, arrived))
  {
    var n := Booted(stored, lost, found, arrived);
    forall s ensures Balanced(n.g, s) && Below(n.g, s) && Within(n, s) {
      SeedingIsExact(stored, s);
      SpentConcat(stored, lost, s);
      SpentNonNegative(lost, s);
    }
  }

  lemma {:induction false} RedisRunSound(nodes: seq<Node>, steps: seq<Step>, k: nat)
    requires IsRedisRun(nodes, steps) && Sound(nodes[0]) && k < |nodes|
    ensures Sound(nodes[k])
  {
    if k > 0 {
      RedisRunSound(nodes, steps, k - 1);
      assert Follows(nodes, steps, k - 1);
      StepSound(nodes[k - 1], steps[k - 1]);
    }
  }

  /** Whichever commands fail, are lost after they ran, or arrive late, and however they interleave with requests,
      flushes and reconciliation: at every moment neither Redis nor the shadow holds more than was added, which is
      never more than was truly spent, and no reset is ever to more than that. */
  lemma RedisNeverOvercounts(stored: seq<UsageRecord>, lost: seq<UsageRecord>, found: Counters, arrived: set<Scope>,
                             nodes: seq<Node>, steps: seq<Step>, k: nat, s: Scope)
    requires Honest(stored, lost, found) && IsRedisRun(nodes, steps)
    requires nodes[0] == Booted(stored, lost, found, arrived) && k < |nodes|
    ensures CounterGet(nodes[k].redis, s) <= AddedSpend(nodes[k].g, s) <= TrueSpend(nodes[k].g, s)
    ensures Counter(nodes[k].g, s) <= AddedSpend(nodes[k].g, s)
    ensures nodes[k].setting.Some? && nodes[k].setting.value.0 == s ==>
              nodes[k].setting.value.1 <= AddedSpend(nodes[k].g, s)
  {
    BootSound(stored, lost, found, arrived);
    RedisRunSound(nodes, steps, k);
    var n := nodes[k];
    assert Within(n, s) && Below(n.g, s);
    OwedIsUnrecorded(n.g.requests, n.incrs, s);
    MissingNonNegative(n.g, s);
  }

  /** So a quota rejection stands on true spend that has reached the limit, with Redis as with process memory. */
  lemma RedisRejectionsAreJustified(stored: seq<UsageRecord>, lost: seq<UsageRecord>, found: Counters,
                                    arrived: set<Scope>, nodes: seq<Node>, steps: seq<Step>, k: nat, i: nat)
    requires Honest(stored, lost, found) && IsRedisRun(nodes, steps)
    requires nodes[0] == Booted(stored, lost, found, arrived) && k < |nodes|
    requires i < |nodes[k].g.requests| && nodes[k].g.requests[i].stage.Rejected?
    ensures
      var q := nodes[k].g.requests[i];
      || (q.stage.decision == UserExhausted(q.granted) && TrueSpend(nodes[k].g, User(q.user)) >= q.granted)
      || (q.cap.Some? && q.stage.decision == KeyCapReached(q.cap.value)
          && TrueSpend(nodes[k].g, Key(q.key)) >= q.cap.value)
  {
    BootSound(stored, lost, found, arrived);
    RedisRunSound(nodes, steps, k);
    var q := nodes[k].g.requests[i];
    assert q in nodes[k].g.requests;
    assert Justified(nodes[k].g, q) && RequestOk(q);
  }

  // --- how far Redis trails ---

  /** What was added to the shadow and will not reach Redis by a command under way. */
  function Gap(n: Node, s: Scope): Money {
    AddedSpend(n.g, s) - CounterGet(n.redis, s) - Owed(n.g.requests, n.incrs, s)
  }

  /** The steps that change it: an INCRBYFLOAT that never runs, and a SET that does. */
  predicate Disturbs(n: Node, e: Step, s: Scope) {
    || (e.IncrLost? && e.i in n.incrs && n.incrs[e.i] == s)
    || (e.SetRuns? && n.setting.Some? && n.setting.value.0 == s)
  }

  /** A lost command costs Redis exactly its amount, a SET leaves what its sum lacks, nothing else matters. */
  lemma GapStep(n: Node, e: Step, s: Scope)
    requires Sound(n) && Can(n, e)
    ensures Gap(Take(n, e), s) ==
            if !Disturbs(n, e, s) then Gap(n, s)
            else if e.IncrLost? then Gap(n, s) + CostOf(n.g.requests[e.i])
            else AddedSpend(n.g, s) - n.setting.value.1 - Owed(n.g.requests, n.incrs, s)
  {
    match e
    case Local(a) => LocalOwed(n, a, s);
    case Reply(i) => CheckGap(n, Warmed(n, i), i, s);
    case NoReply(i) => CheckGap(n, n.g, i, s);
    case IncrRuns(i) => OwedSettled(n.g.requests, n.incrs, i, s);
    case IncrLost(i) => OwedSettled(n.g.requests, n.incrs, i, s);
    case _ =>
  }

  lemma {:induction false} GapAlong(nodes: seq<Node>, steps: seq<Step>, from: nat, to: nat, s: Scope)
    requires IsRedisRun(nodes, steps) && Sound(nodes[0]) && from <= to < |nodes|
    requires forall k :: from <= k < to ==> !Disturbs(nodes[k], steps[k], s)
    ensures Gap(nodes[to], s) == Gap(nodes[from], s)
  {
    if from < to {
      GapAlong(nodes, steps, from, to - 1, s);
      RedisRunSound(nodes, steps, to - 1);
      assert Follows(nodes, steps, to - 1);
      GapStep(nodes[to - 1], steps[to - 1], s);
    }
  }

  /** From a boot whose SET for the scope arrived, and while no increment for it is lost and no SET for it runs, Redis
      holds everything added but what is under way to it and what earlier processes lost. */
  lemma RedisExact(stored: seq<UsageRecord>, lost: seq<UsageRecord>, found: Counters, arrived: set<Scope>,
                   nodes: seq<Node>, steps: seq<Step>, k: nat, s: Scope)
    requires Honest(stored, lost, found) && IsRedisRun(nodes, steps)
    requires nodes[0] == Booted(stored, lost, found, arrived) && k < |nodes|
    requires s in arrived && s in Boot(stored).counters
    requires forall j :: 0 <= j < k ==> !Disturbs(nodes[j], steps[j], s)
    ensures CounterGet(nodes[k].redis, s) ==
            AddedSpend(nodes[k].g, s) - Owed(nodes[k].g.requests, nodes[k].incrs, s) - Spent(lost, s)
  {
    BootSound(stored, lost, found, arrived);
    GapAlong(nodes, steps, 0, k, s);
    SeedingIsExact(stored, s);
    SpentConcat(stored, lost, s);
  }
}
