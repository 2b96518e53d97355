/** Spend counters kept in Redis, with the shadow that takes over while Redis is unreachable
    (`RedisCounter` in src/quota/counter.rs). */
module RedisCounter {
  import opened Basics
  import opened Quota

  /** What becomes of a command: it takes effect and says so, it takes effect but the reply is lost, or it
      never arrives. The last two look the same to the gateway. */
  datatype Outcome = Acknowledged | ReplyLost | NeverArrived
  {
    predicate Applied() { !NeverArrived? }
  }

  /** For every scope, no more than what was really spent. */
  ghost predicate Below(values: Counters, spent: Counters) {
    forall s :: CounterGet(values, s) <= CounterGet(spent, s)
  }

  ghost predicate Same(a: Counters, b: Counters) {
    forall s :: CounterGet(a, s) == CounterGet(b, s)
  }

  class Counter {
    var redis: Counters
    var shadow: Counters
    var degraded: bool

    /** Everything ever spent, also before this process started. */
    ghost var spent: Counters
    /** A memory counter that has seen the same calls. */
    ghost var reference: Counters
    /** Some command has failed. */
    ghost var failed: bool
    /** Costs were not negative, and every reset was to a sum that had been spent (`RedisLoop` shows that they are). */
    ghost var honest: bool

    /** Neither Redis nor the shadow ever claims more than was spent, unless a caller asked for it; and Redis is as
        good as process memory until a command fails. */
    ghost predicate Valid()
      reads this
    {
      && (honest ==> Below(redis, spent) && Below(shadow, spent))
      && (!failed ==> Same(redis, reference))
    }

    /** Redis may hold counters of an earlier process. */
    constructor (found: Counters, ghost spent: Counters)
      ensures Valid() && this.spent == spent && reference == found && !failed && !degraded
      ensures honest <==> forall s :: CounterGet(found, s) <= CounterGet(spent, s) && 0.0 <= CounterGet(spent, s)
    {
      redis, shadow, degraded := found, map[], false;
      this.spent, reference, failed := spent, found, false;
      honest := Below(found, spent) && Below(map[], spent);
      assert forall s :: CounterGet(map[], s) == 0.0;
    }

    method NoteOutcome(outcome: Outcome)
      modifies this`degraded, this`failed
      ensures degraded == !outcome.Acknowledged? && failed == (old(failed) || !outcome.Acknowledged?)
    {
      degraded := !outcome.Acknowledged?;
      failed := failed || !outcome.Acknowledged?;
    }

    method Get(scope: Scope, outcome: Outcome) returns (value: Money)
      requires Valid()
      modifies this
      ensures Valid() && spent == old(spent) && reference == old(reference) && redis == old(redis)
      ensures honest == old(honest) && (honest ==> value <= CounterGet(spent, scope))
      ensures value == CounterGet(if outcome.Acknowledged? then old(redis) else old(shadow), scope)
      ensures !failed ==> value == CounterGet(reference, scope)
      ensures degraded == !outcome.Acknowledged? && failed == (old(failed) || !outcome.Acknowledged?)
    {
      NoteOutcome(outcome);
      if outcome.Acknowledged? {
        value := CounterGet(redis, scope);
        // A later outage starts from here.
        shadow := shadow[scope := value];
      } else {
        value := CounterGet(shadow, scope);
      }
    }

    /** The shadow always advances; Redis does if the command arrives. */
    method Add(scope: Scope, cost: Money, outcome: Outcome)
      requires Valid()
      modifies this
      ensures Valid() && honest == (old(honest) && cost >= 0.0)
      ensures spent == CounterAdd(old(spent), scope, cost)
      ensures reference == CounterAdd(old(reference), scope, cost)
      ensures shadow == CounterAdd(old(shadow), scope, cost)
      ensures redis == if outcome.NeverArrived? then old(redis) else CounterAdd(old(redis), scope, cost)
      ensures degraded == !outcome.Acknowledged? && failed == (old(failed) || !outcome.Acknowledged?)
    {
      if !failed { SameKept(redis, reference, scope, cost); }
      honest := honest && cost >= 0.0;
      if honest {
        AddKeeps(shadow, spent, scope, cost);
        AddKeeps(redis, spent, scope, cost);
      }
      spent, reference := CounterAdd(spent, scope, cost), CounterAdd(reference, scope, cost);
      shadow := CounterAdd(shadow, scope, cost);
      if outcome.Applied() {
        redis := CounterAdd(redis, scope, cost);
      }
      NoteOutcome(outcome);
    }

    /** The shadow is reset at once, Redis if the command arrives. */
    method Reset(scope: Scope, value: Money, outcome: Outcome)
      requires Valid()
      modifies this
      ensures Valid() && honest == (old(honest) && value <= CounterGet(spent, scope))
      ensures spent == old(spent) && reference == old(reference)[scope := value]
      ensures shadow == old(shadow)[scope := value]
      ensures redis == if outcome.NeverArrived? then old(redis) else old(redis)[scope := value]
      ensures degraded == !outcome.Acknowledged? && failed == (old(failed) || !outcome.Acknowledged?)
    {
      if !failed { SameKept(redis, reference, scope, value); }
      honest := honest && value <= CounterGet(spent, scope);
      reference := reference[scope := value];
      shadow := shadow[scope := value];
      if outcome.Applied() {
        redis := redis[scope := value];
      }
      NoteOutcome(outcome);
    }
  }

  lemma AddKeeps(values: Counters, spent: Counters, scope: Scope, cost: Money)
    requires Below(values, spent) && cost >= 0.0
    ensures Below(CounterAdd(values, scope, cost), CounterAdd(spent, scope, cost))
    ensures Below(values, CounterAdd(spent, scope, cost))
  {
    forall s
      ensures CounterGet(CounterAdd(values, scope, cost), s) <= CounterGet(CounterAdd(spent, scope, cost), s)
      ensures CounterGet(values, s) <= CounterGet(CounterAdd(spent, scope, cost), s)
    {
      assert CounterGet(values, s) <= CounterGet(spent, s);
    }
  }

  lemma SameKept(a: Counters, b: Counters, scope: Scope, x: Money)
    requires Same(a, b)
    ensures Same(CounterAdd(a, scope, x), CounterAdd(b, scope, x)) && Same(a[scope := x], b[scope := x])
  {
    assert CounterGet(a, scope) == CounterGet(b, scope);
    forall s
      ensures CounterGet(CounterAdd(a, scope, x), s) == CounterGet(CounterAdd(b, scope, x), s)
      ensures CounterGet(a[scope := x], s) == CounterGet(b[scope := x], s)
    {
      assert CounterGet(a, s) == CounterGet(b, s);
    }
  }

  // --- whole runs ---

  datatype Call = Read(scope: Scope) | Spend(scope: Scope, cost: Money) | Reseed(scope: Scope, value: Money)

  /** Costs are not negative, and a reset is to something that had been spent by then. */
  ghost predicate Honest(spent: Counters, calls: seq<(Call, Outcome)>)
    decreases |calls|
  {
    if calls == [] then true
    else
      match calls[0].0
      case Read(_) => Honest(spent, calls[1..])
      case Spend(s, cost) => cost >= 0.0 && Honest(CounterAdd(spent, s, cost), calls[1..])
      case Reseed(s, value) => value <= CounterGet(spent, s) && Honest(spent, calls[1..])
  }

  function SpentBy(spent: Counters, calls: seq<(Call, Outcome)>): Counters
    decreases |calls|
  {
    if calls == [] then spent
    else match calls[0].0
      case Spend(s, cost) => SpentBy(CounterAdd(spent, s, cost), calls[1..])
      case _ => SpentBy(spent, calls[1..])
  }

  /** For every read, what had really been spent by then. */
  function SpentAtReads(spent: Counters, calls: seq<(Call, Outcome)>): seq<Money>
    decreases |calls|
  {
    if calls == [] then []
    else match calls[0].0
      case Read(s) => [CounterGet(spent, s)] + SpentAtReads(spent, calls[1..])
      case Spend(s, cost) => SpentAtReads(CounterAdd(spent, s, cost), calls[1..])
      case Reseed(_, _) => SpentAtReads(spent, calls[1..])
  }

  /** A counter in process memory after the calls. */
  function MemoryAfter(values: Counters, calls: seq<(Call, Outcome)>): Counters
    decreases |calls|
  {
    if calls == [] then values
    else match calls[0].0
      case Read(_) => MemoryAfter(values, calls[1..])
      case Spend(s, cost) => MemoryAfter(CounterAdd(values, s, cost), calls[1..])
      case Reseed(s, value) => MemoryAfter(values[s := value], calls[1..])
  }

  /** What it answers to the reads. */
  function MemoryReads(values: Counters, calls: seq<(Call, Outcome)>): seq<Money>
    decreases |calls|
  {
    if calls == [] then []
    else match calls[0].0
      case Read(s) => [CounterGet(values, s)] + MemoryReads(values, calls[1..])
      case Spend(s, cost) => MemoryReads(CounterAdd(values, s, cost), calls[1..])
      case Reseed(s, value) => MemoryReads(values[s := value], calls[1..])
  }

  predicate AllAcknowledged(calls: seq<(Call, Outcome)>)
    decreases |calls|
  {
    calls == [] || (calls[0].1.Acknowledged? && AllAcknowledged(calls[1..]))
  }

  ghost predicate AtMost(answers: seq<Money>, limits: seq<Money>) {
    |answers| == |limits| && forall i :: 0 <= i < |answers| ==> answers[i] <= limits[i]
  }

  /** Whatever commands fail, no read is ever above what had been spent by then, if no reset was; so an outage cannot
      make the quota check reject a request that had credit left. As long as none has failed, every read is what a
      counter in process memory would have answered. */
  method Serve(counter: Counter, calls: seq<(Call, Outcome)>) returns (answers: seq<Money>)
    requires counter.Valid()
    modifies counter
    ensures counter.Valid() && counter.honest == (old(counter.honest) && Honest(old(counter.spent), calls))
    ensures counter.spent == SpentBy(old(counter.spent), calls)
    ensures counter.reference == MemoryAfter(old(counter.reference), calls)
    ensures counter.failed == (old(counter.failed) || !AllAcknowledged(calls))
    ensures counter.honest ==>
              var limits := SpentAtReads(old(counter.spent), calls);
              |answers| == |limits| && forall i :: 0 <= i < |answers| ==> answers[i] <= limits[i]
    ensures !counter.failed ==> answers == MemoryReads(old(counter.reference), calls)
  {
    answers := [];
    ghost var limits: seq<Money> := [];
    for i := 0 to |calls|
      invariant counter.Valid()
      invariant (counter.honest && Honest(counter.spent, calls[i..])) ==
                (old(counter.honest) && Honest(old(counter.spent), calls))
      invariant SpentBy(counter.spent, calls[i..]) == SpentBy(old(counter.spent), calls)
      invariant MemoryAfter(counter.reference, calls[i..]) == MemoryAfter(old(counter.reference), calls)
      invariant (counter.failed || !AllAcknowledged(calls[i..])) == (old(counter.failed) || !AllAcknowledged(calls))
      invariant counter.honest ==> AtMost(answers, limits)
      invariant limits + SpentAtReads(counter.spent, calls[i..]) == SpentAtReads(old(counter.spent), calls)
      invariant !counter.failed ==>
                  answers + MemoryReads(counter.reference, calls[i..]) == MemoryReads(old(counter.reference), calls)
    {
      assert calls[i..][1..] == calls[i + 1..];
      var (call, outcome) := calls[i];
      match call {
        case Read(s) =>
          ConcatAssoc(limits, [CounterGet(counter.spent, s)], SpentAtReads(counter.spent, calls[i + 1..]));
          ConcatAssoc(answers, [CounterGet(counter.reference, s)], MemoryReads(counter.reference, calls[i + 1..]));
          limits := limits + [CounterGet(counter.spent, s)];
          var value := counter.Get(s, outcome);
          answers := answers + [value];
        case Spend(s, cost) => counter.Add(s, cost, outcome);
        case Reseed(s, value) => counter.Reset(s, value, outcome);
      }
    }
    assert limits + [] == limits && answers + [] == answers;
  }
}
