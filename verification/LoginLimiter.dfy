/** The bounded login limiter against the unbounded one it stands for (`LoginLimiter` in src/admin/session.rs). */
module LoginLimiter {
  import opened Basics

  const LOCKOUT_THRESHOLD := 5
  const LOCKOUT_MAX_ENTRIES := 10_000

  datatype Entry = Entry(failures: nat, lockedUntil: Option<nat>)

  const UNTOUCHED := Entry(0, None)

  // --- the unbounded limiter, as a function of what happened ---

  datatype Op = Check(username: string) | Failure(username: string) | Reset(username: string)

  /** Timed calls since the process started, the latest outermost. */
  datatype History = Start | Then(before: History, at: nat, op: Op)
  {
    function Now(): nat {
      if Start? then 0 else at
    }
  }

  /** One more failure: the fifth in a row locks and starts the count anew. */
  function AfterFailure(e: Entry, now: nat, lockout: nat): Entry {
    if e.failures + 1 >= LOCKOUT_THRESHOLD then Entry(0, Some(now + lockout)) else Entry(e.failures + 1, e.lockedUntil)
  }

  /** What a limiter that never forgets knows about a username. */
  function Unbounded(h: History, username: string, lockout: nat): Entry {
    match h
    case Start => UNTOUCHED
    case Then(before, at, Failure(u)) =>
      var e := Unbounded(before, username, lockout);
      if u == username then AfterFailure(e, at, lockout) else e
    case Then(before, _, Reset(u)) => if u == username then UNTOUCHED else Unbounded(before, username, lockout)
    case Then(before, _, Check(_)) => Unbounded(before, username, lockout)
  }

  predicate Locked(e: Entry, now: nat) {
    e.lockedUntil.Some? && e.lockedUntil.value > now
  }

  /** What can still be observed of an entry: its count, and its lock while that lasts. */
  function Observable(e: Entry, now: nat): Entry {
    if Locked(e, now) then e else e.(lockedUntil := None)
  }

  /** A username that has failed, since it was last reset or locked, `n` times in a row. */
  ghost predicate InARow(h: History, username: string, n: nat)
    decreases h
  {
    if n == 0 then
      || h.Start?
      || (h.Then? && h.op == Reset(username))
      || (h.Then? && h.op == Failure(username) && InARow(h.before, username, LOCKOUT_THRESHOLD - 1))
      || (h.Then? && (h.op.Check? || h.op.username != username) && InARow(h.before, username, 0))
    else
      && h.Then?
      && if h.op == Failure(username) then n < LOCKOUT_THRESHOLD && InARow(h.before, username, n - 1)
         else (h.op.Check? || h.op.username != username) && InARow(h.before, username, n)
  }

  /** The count is the number of consecutive failures, so it stays below the threshold. */
  lemma {:induction false} CountsInARow(h: History, username: string, lockout: nat, n: nat)
    ensures InARow(h, username, n) <==> n == Unbounded(h, username, lockout).failures
    ensures Unbounded(h, username, lockout).failures < 5
    decreases h
  {
    if h.Then? {
      CountsInARow(h.before, username, lockout, n);
      CountsInARow(h.before, username, lockout, LOCKOUT_THRESHOLD - 1);
      CountsInARow(h.before, username, lockout, 0);
      if n > 0 { CountsInARow(h.before, username, lockout, n - 1); }
    }
  }

  /** The last failure that was the fifth in a row came at `at`, and the username has not been reset since. */
  ghost predicate FifthAt(h: History, username: string, at: nat) {
    match h
    case Start => false
    case Then(before, t, Failure(u)) =>
      if u == username && InARow(before, username, LOCKOUT_THRESHOLD - 1) then at == t
      else FifthAt(before, username, at)
    case Then(before, _, Reset(u)) => u != username && FifthAt(before, username, at)
    case Then(before, _, Check(_)) => FifthAt(before, username, at)
  }

  lemma {:induction false} LockStarts(h: History, username: string, lockout: nat, at: nat)
    ensures FifthAt(h, username, at) <==> Unbounded(h, username, lockout).lockedUntil == Some(at + lockout)
  {
    if h.Then? {
      LockStarts(h.before, username, lockout, at);
      CountsInARow(h.before, username, lockout, LOCKOUT_THRESHOLD - 1);
    }
  }

  lemma {:induction false} LockLasts(h: History, username: string, lockout: nat)
    ensures var until := Unbounded(h, username, lockout).lockedUntil; until.Some? ==> until.value >= lockout
  {
    if h.Then? { LockLasts(h.before, username, lockout); }
  }

  /** A username is locked exactly while less than the lockout has passed since its last fifth failure in a row. */
  lemma LockedAfterFive(h: History, username: string, lockout: nat, now: nat)
    ensures Locked(Unbounded(h, username, lockout), now) <==>
            exists at: nat :: FifthAt(h, username, at) && now < at + lockout
  {
    var until := Unbounded(h, username, lockout).lockedUntil;
    if until.Some? {
      LockLasts(h, username, lockout);
      LockStarts(h, username, lockout, until.value - lockout);
    }
    forall at: nat | FifthAt(h, username, at) ensures until == Some(at + lockout) {
      LockStarts(h, username, lockout, at);
    }
  }

  // --- the bounded limiter ---

  function View(entries: map<string, Entry>, username: string): Entry {
    if username in entries then entries[username] else UNTOUCHED
  }

  /** For every username, the table and the unbounded limiter cannot be told apart from now on. */
  ghost predicate Indistinguishable(entries: map<string, Entry>, h: History, lockout: nat, now: nat) {
    forall u :: Observable(View(entries, u), now) == Observable(Unbounded(h, u, lockout), now)
  }

  /** Entries worth keeping when room is needed. */
  predicate Alive(e: Entry, now: nat) {
    Locked(e, now) || e.failures > 0
  }

  function Kept(entries: map<string, Entry>, now: nat): map<string, Entry> {
    map u | u in entries && Alive(entries[u], now) :: entries[u]
  }

  function Counted(entries: map<string, Entry>, username: string, now: nat, lockout: nat): map<string, Entry> {
    entries[username := AfterFailure(View(entries, username), now, lockout)]
  }

  ghost predicate Fits(entries: map<string, Entry>) {
    |entries| <= LOCKOUT_MAX_ENTRIES && forall u :: u in entries ==> entries[u].failures < LOCKOUT_THRESHOLD
  }

  lemma CountedFits(entries: map<string, Entry>, username: string, now: nat, lockout: nat)
    requires Fits(entries) && (|entries| < LOCKOUT_MAX_ENTRIES || username in entries)
    ensures Fits(Counted(entries, username, now, lockout))
  {
  }

  /** No room for the username, and nothing to make room by. */
  predicate Refuses(entries: map<string, Entry>, username: string, now: nat) {
    && |entries| >= LOCKOUT_MAX_ENTRIES && username !in entries
    && |Kept(entries, now)| >= LOCKOUT_MAX_ENTRIES
  }

  /** The bounded table after a history. */
  function Table(h: History, lockout: nat): map<string, Entry> {
    match h
    case Start => map[]
    case Then(before, at, Failure(u)) =>
      var entries := Table(before, lockout);
      if |entries| < LOCKOUT_MAX_ENTRIES || u in entries then Counted(entries, u, at, lockout)
      else
        var kept := Kept(entries, at);
        if |kept| < LOCKOUT_MAX_ENTRIES then Counted(kept, u, at, lockout) else kept
    case Then(before, _, Reset(u)) => Table(before, lockout) - {u}
    case Then(before, at, Check(u)) =>
      var entries := Table(before, lockout);
      if u in entries && !Locked(entries[u], at) then entries[u := entries[u].(lockedUntil := None)] else entries
  }

  /** Whether a failure has ever been refused for lack of room. */
  predicate Refused(h: History, lockout: nat) {
    match h
    case Start => false
    case Then(before, at, Failure(u)) => Refused(before, lockout) || Refuses(Table(before, lockout), u, at)
    case Then(before, _, _) => Refused(before, lockout)
  }

  class Limiter {
    var entries: map<string, Entry>
    const lockout: nat
    ghost var history: History

    /** Never more than 10,000 entries, never a count of five, and no difference to the unbounded limiter until
        a failure has been refused. */
    ghost predicate Valid()
      reads this
    {
      && entries == Table(history, lockout)
      && Fits(entries)
      && (!Refused(history, lockout) ==> Indistinguishable(entries, history, lockout, history.Now()))
    }

    constructor (lockout: nat)
      ensures Valid() && history == Start && this.lockout == lockout && !Refused(history, lockout)
    {
      this.lockout := lockout;
      entries, history := map[], Start;
    }

    /** Tells whether the username is locked, forgetting a lock that has expired. */
    method IsLocked(username: string, now: nat) returns (locked: bool)
      requires Valid() && now >= history.Now()
      modifies this
      ensures Valid() && history == Then(old(history), now, Check(username))
      ensures !Refused(history, lockout) ==> locked == Locked(Unbounded(old(history), username, lockout), now)
    {
      if !Refused(history, lockout) {
        TimePasses(entries, history, lockout, history.Now(), now);
        assert Observable(View(entries, username), now) == Observable(Unbounded(history, username, lockout), now);
      }
      history := Then(history, now, Check(username));
      if username !in entries {
        return false;
      }
      var entry := entries[username];
      locked := Locked(entry, now);
      if !locked {
        entries := entries[username := entry.(lockedUntil := None)];
      }
    }

    /** Counts a failure. When the table is full and the username unknown, dead entries make room first; if none
        is dead, the failure is not counted. */
    method RegisterFailure(username: string, now: nat)
      requires Valid() && now >= history.Now()
      modifies this
      ensures Valid() && history == Then(old(history), now, Failure(username))
      ensures Refused(history, lockout) <==>
              || Refused(old(history), lockout)
              || (username !in old(entries) && |old(entries)| == 10_000
                  && forall u :: u in old(entries) ==> old(entries)[u].failures > 0 || Locked(old(entries)[u], now))
    {
      if !Refused(history, lockout) { TimePasses(entries, history, lockout, history.Now(), now); }
      KeptSize(entries, now);
      history := Then(history, now, Failure(username));
      if |entries| >= LOCKOUT_MAX_ENTRIES && username !in entries {
        Evict(now);
        if |entries| >= LOCKOUT_MAX_ENTRIES {
          return;
        }
      }
      if !Refused(history, lockout) { SameAfterFailure(entries, old(history), lockout, username, now); }
      CountedFits(entries, username, now, lockout);
      Count(username, now);
    }

    method Count(username: string, now: nat)
      modifies this`entries
      ensures entries == Counted(old(entries), username, now, lockout)
    {
      var entry := View(entries, username);
      entry := entry.(failures := entry.failures + 1);
      if entry.failures >= LOCKOUT_THRESHOLD {
        entry := entry.(lockedUntil := Some(now + lockout));
        entry := entry.(failures := 0);
      }
      entries := entries[username := entry];
    }

    /** Dead entries, and only those, are dropped; nobody can tell. */
    method Evict(now: nat)
      modifies this`entries
      ensures entries == Kept(old(entries), now)
      ensures |entries| <= |old(entries)|
      ensures forall u :: u in entries <==>
                u in old(entries) && (old(entries)[u].failures > 0 || Locked(old(entries)[u], now))
      ensures |entries| == |old(entries)| <==> forall u :: u in old(entries) ==> Alive(old(entries)[u], now)
      ensures forall u :: Observable(View(entries, u), now) == Observable(View(old(entries), u), now)
    {
      entries := map u | u in entries && Alive(entries[u], now) :: entries[u];
      KeptSize(old(entries), now);
    }

    method ClearFailures(username: string, now: nat)
      requires Valid() && now >= history.Now()
      modifies this
      ensures Valid() && history == Then(old(history), now, Reset(username))
    {
      if !Refused(history, lockout) { TimePasses(entries, history, lockout, history.Now(), now); }
      history := Then(history, now, Reset(username));
      entries := entries - {username};
      FewerKeys(entries, old(entries));
    }
  }

  lemma FewerKeys<K, V>(less: map<K, V>, more: map<K, V>)
    requires forall k :: k in less ==> k in more
    ensures |less| <= |more|
    ensures |less| == |more| <==> less.Keys == more.Keys
  {
    assert |less| == |less.Keys| && |more| == |more.Keys|;
    var rest := more.Keys - less.Keys;
    assert more.Keys == less.Keys + rest && less.Keys !! rest;
    assert |more.Keys| == |less.Keys| + |rest|;
  }

  lemma KeptSize(entries: map<string, Entry>, now: nat)
    ensures |Kept(entries, now)| <= |entries|
    ensures |Kept(entries, now)| == |entries| <==> forall u :: u in entries ==> Alive(entries[u], now)
  {
    FewerKeys(Kept(entries, now), entries);
    if Kept(entries, now).Keys == entries.Keys {
      forall u | u in entries ensures Alive(entries[u], now) { assert u in Kept(entries, now); }
    }
    if forall u :: u in entries ==> Alive(entries[u], now) {
      assert Kept(entries, now).Keys == entries.Keys;
    }
  }

  lemma TimePasses(entries: map<string, Entry>, h: History, lockout: nat, now: nat, later: nat)
    requires Indistinguishable(entries, h, lockout, now) && now <= later
    ensures Indistinguishable(entries, h, lockout, later)
  {
    forall u ensures Observable(View(entries, u), later) == Observable(Unbounded(h, u, lockout), later) {
      assert Observable(View(entries, u), now) == Observable(Unbounded(h, u, lockout), now);
    }
  }

  lemma SameAfterFailure(entries: map<string, Entry>, h: History, lockout: nat, username: string, now: nat)
    requires Indistinguishable(entries, h, lockout, now)
    ensures Indistinguishable(Counted(entries, username, now, lockout), Then(h, now, Failure(username)), lockout, now)
  {
    forall u
      ensures Observable(View(Counted(entries, username, now, lockout), u), now)
              == Observable(Unbounded(Then(h, now, Failure(username)), u, lockout), now)
    {
      assert Observable(View(entries, u), now) == Observable(Unbounded(h, u, lockout), now);
    }
  }

  /** Time does not go backwards. */
  ghost predicate Timed(h: History, calls: seq<(nat, Op)>) {
    calls == [] || (Timed(h, calls[..|calls| - 1]) && calls[|calls| - 1].0 >= After(h, calls[..|calls| - 1]).Now())
  }

  lemma {:induction false} TimedPrefix(h: History, calls: seq<(nat, Op)>, n: nat)
    requires Timed(h, calls) && n <= |calls|
    ensures Timed(h, calls[..n])
    decreases |calls|
  {
    if n < |calls| {
      TimedPrefix(h, calls[..|calls| - 1], n);
      assert calls[..|calls| - 1][..n] == calls[..n];
    } else {
      assert calls[..n] == calls;
    }
  }

  /** Whole timed runs: up to the first refusal, wherever in the run it comes, all answers are those of the
      unbounded limiter. */
  method Serve(limiter: Limiter, calls: seq<(nat, Op)>) returns (answers: seq<bool>)
    requires limiter.Valid() && Timed(limiter.history, calls)
    modifies limiter
    ensures limiter.Valid() && |answers| == |calls|
    ensures limiter.history == After(old(limiter.history), calls)
    ensures forall n :: 0 <= n <= |calls| && !Refused(After(old(limiter.history), calls[..n]), limiter.lockout) ==>
              answers[..n] == Answers(old(limiter.history), calls[..n], limiter.lockout)
  {
    answers := [];
    ghost var h, lockout := limiter.history, limiter.lockout;
    for i := 0 to |calls|
      invariant limiter.Valid() && |answers| == i && limiter.lockout == lockout
      invariant limiter.history == After(h, calls[..i])
      invariant forall n :: 0 <= n <= i ==> AgreesUpTo(h, calls, answers, n, lockout)
    {
      TimedPrefix(h, calls, i + 1);
      assert calls[..i + 1][..i] == calls[..i];
      var answer := false;
      var (now, op) := calls[i];
      match op {
        case Check(u) => answer := limiter.IsLocked(u, now);
        case Failure(u) => limiter.RegisterFailure(u, now);
        case Reset(u) => limiter.ClearFailures(u, now);
      }
      assert AgreesUpTo(h, calls, answers, i, lockout);
      AgreesLonger(h, calls, answers, answer, i, lockout);
      answers := answers + [answer];
    }
    assert calls[..|calls|] == calls;
    forall n | 0 <= n <= |calls| && !Refused(After(h, calls[..n]), lockout)
      ensures answers[..n] == Answers(h, calls[..n], lockout)
    {
      assert AgreesUpTo(h, calls, answers, n, lockout);
    }
  }

  ghost predicate AgreesUpTo(h: History, calls: seq<(nat, Op)>, answers: seq<bool>, n: nat, lockout: nat) {
    n <= |answers| && n <= |calls|
    && (!Refused(After(h, calls[..n]), lockout) ==> answers[..n] == Answers(h, calls[..n], lockout))
  }

  lemma AgreesLonger(h: History, calls: seq<(nat, Op)>, answers: seq<bool>, answer: bool, i: nat, lockout: nat)
    requires i == |answers| < |calls|
    requires forall n :: 0 <= n <= i ==> AgreesUpTo(h, calls, answers, n, lockout)
    requires !Refused(After(h, calls[..i + 1]), lockout) ==>
               answer == (calls[i].1.Check?
                          && Locked(Unbounded(After(h, calls[..i]), calls[i].1.username, lockout), calls[i].0))
    ensures forall n :: 0 <= n <= i + 1 ==> AgreesUpTo(h, calls, answers + [answer], n, lockout)
  {
    forall n | 0 <= n <= i ensures AgreesUpTo(h, calls, answers + [answer], n, lockout) {
      assert AgreesUpTo(h, calls, answers, n, lockout);
      assert (answers + [answer])[..n] == answers[..n];
    }
    assert calls[..i + 1][..i] == calls[..i];
    assert AgreesUpTo(h, calls, answers, i, lockout) && answers[..i] == answers;
    assert (answers + [answer])[..i + 1] == answers + [answer];
  }

  function After(h: History, calls: seq<(nat, Op)>): History {
    if calls == [] then h
    else
      var (now, op) := calls[|calls| - 1];
      Then(After(h, calls[..|calls| - 1]), now, op)
  }

  /** The answers of the unbounded limiter; only checks are answered. */
  function Answers(h: History, calls: seq<(nat, Op)>, lockout: nat): seq<bool> {
    if calls == [] then []
    else
      var init, (now, op) := calls[..|calls| - 1], calls[|calls| - 1];
      Answers(h, init, lockout) + [op.Check? && Locked(Unbounded(After(h, init), op.username, lockout), now)]
  }
}
