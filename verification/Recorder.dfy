/** The bounded usage channel and its batch writer (src/usage/recorder.rs). */
module Recorder {
  import opened Basics

  const CHANNEL_CAPACITY := 1024
  const BATCH_SIZE := 128

  /** Where `run_writer` is: selecting, draining after a shutdown signal, in its final flush, or returned
      (which closes the channel). */
  datatype Phase = Running | Draining | Finishing | Exited

  /** The whole pipeline. `handed` lists the batches given to the sink; while `busy` the writer awaits the
      last of them. `connected` tells whether a sender is left. */
  datatype Pipe<R> = Pipe(
    channel: seq<R>,
    buffer: seq<R>,
    handed: seq<seq<R>>,
    busy: bool,
    phase: Phase,
    connected: bool)

  function Empty<R>(): Pipe<R> {
    Pipe([], [], [], false, Running, true)
  }

  /** One step of a producer, of the scheduler choosing a `select!` branch, or of the sink. */
  datatype Event<R> =
    | Send(record: R)
    | Disconnect
    | Recv
    | RecvNone
    | Tick
    | Shutdown
    | DrainOne
    | DrainEnd
    | FlushDone

  predicate Accepts<R>(p: Pipe<R>) {
    p.phase != Exited && |p.channel| < CHANNEL_CAPACITY
  }

  predicate Enabled<R>(p: Pipe<R>, e: Event<R>) {
    match e
    case Send(_) => p.connected
    case Disconnect => p.connected
    case Recv => p.phase == Running && !p.busy && p.channel != []
    case RecvNone => p.phase == Running && !p.busy && p.channel == [] && !p.connected
    case Tick => p.phase == Running && !p.busy
    case Shutdown => p.phase == Running && !p.busy
    case DrainOne => p.phase == Draining && p.channel != []
    case DrainEnd => p.phase == Draining && p.channel == []
    case FlushDone => p.busy
  }

  function Popped<R>(p: Pipe<R>): Pipe<R>
    requires p.channel != []
  {
    p.(channel := p.channel[1..], buffer := p.buffer + [p.channel[0]])
  }

  /** `sink.flush(take(buffer))`; an empty batch is a no-op for every sink. */
  function StartFlush<R>(p: Pipe<R>): Pipe<R> {
    if p.buffer == [] then p else p.(buffer := [], handed := p.handed + [p.buffer], busy := true)
  }

  /** Leave the loop and flush what is buffered; with nothing to flush the writer is done at once. */
  function Finish<R>(p: Pipe<R>): Pipe<R> {
    StartFlush(p).(phase := if p.buffer == [] then Exited else Finishing)
  }

  function Next<R>(p: Pipe<R>, e: Event<R>): Pipe<R>
    requires Enabled(p, e)
  {
    match e
    case Send(r) => if Accepts(p) then p.(channel := p.channel + [r]) else p
    case Disconnect => p.(connected := false)
    case Recv =>
      var q := Popped(p);
      if |q.buffer| >= BATCH_SIZE then StartFlush(q) else q
    case RecvNone => Finish(p)
    case Tick => StartFlush(p)
    case Shutdown => p.(phase := Draining)
    case DrainOne => Popped(p)
    case DrainEnd => Finish(p)
    case FlushDone => p.(busy := false, phase := if p.phase == Finishing then Exited else p.phase)
  }

  /** What a step adds to the accepted records. */
  function NewlyAccepted<R>(p: Pipe<R>, e: Event<R>): seq<R> {
    if e.Send? && p.connected && Accepts(p) then [e.record] else []
  }

  /** Events that cannot happen are passed over: the schedule is any sequence at all. */
  function Step<R>(p: Pipe<R>, e: Event<R>): Pipe<R> {
    if Enabled(p, e) then Next(p, e) else p
  }

  function Exec<R>(p: Pipe<R>, schedule: seq<Event<R>>): Pipe<R>
    decreases |schedule|
  {
    if schedule == [] then p else Exec(Step(p, schedule[0]), schedule[1..])
  }

  /** The records accepted along a schedule, in order. */
  function Accepted<R>(p: Pipe<R>, schedule: seq<Event<R>>): seq<R>
    decreases |schedule|
  {
    if schedule == [] then [] else NewlyAccepted(p, schedule[0]) + Accepted(Step(p, schedule[0]), schedule[1..])
  }

  /** Everything accepted is in exactly one place: handed to the sink, buffered or queued, in order. */
  ghost predicate Holds<R>(p: Pipe<R>, accepted: seq<R>) {
    Flatten(p.handed) + p.buffer + p.channel == accepted
  }

  ghost predicate Bounded<R>(p: Pipe<R>) {
    && |p.channel| <= CHANNEL_CAPACITY
    && (p.phase == Running ==> |p.buffer| < BATCH_SIZE)
    && (p.phase == Finishing || p.phase == Exited ==> p.buffer == [])
    && (p.phase == Finishing ==> p.busy)
    && (p.phase == Exited || p.phase == Draining ==> !p.busy)
  }

  /** When the writer flushes: on every tick, if anything is buffered, and at the 128th record. */
  lemma FlushesWhenDue<R>(p: Pipe<R>)
    requires Bounded(p)
    ensures Enabled(p, Tick) ==>
              Next(p, Tick) == if p.buffer == [] then p
                               else p.(buffer := [], handed := p.handed + [p.buffer], busy := true)
    ensures Enabled(p, Recv) ==>
              var batch := p.buffer + [p.channel[0]];
              Next(p, Recv) == if |batch| == 128 then
                                 p.(channel := p.channel[1..], buffer := [], handed := p.handed + [batch], busy := true)
                               else p.(channel := p.channel[1..], buffer := batch)
  {
  }

  lemma PopKeeps<R>(p: Pipe<R>, accepted: seq<R>)
    requires Holds(p, accepted) && p.channel != []
    ensures Holds(Popped(p), accepted)
  {
    assert p.channel == [p.channel[0]] + p.channel[1..];
  }

  lemma FlushKeeps<R>(p: Pipe<R>, accepted: seq<R>)
    requires Holds(p, accepted)
    ensures Holds(StartFlush(p), accepted)
  {
    FlattenSnoc(p.handed, p.buffer);
  }

  lemma StepKeeps<R>(p: Pipe<R>, e: Event<R>, accepted: seq<R>)
    requires Holds(p, accepted) && Bounded(p)
    ensures Holds(Step(p, e), accepted + NewlyAccepted(p, e)) && Bounded(Step(p, e))
  {
    assert accepted + [] == accepted;
    if Enabled(p, e) {
      match e
      case Send(r) => assert Holds(p, accepted + []);
      case Recv =>
        PopKeeps(p, accepted);
        FlushKeeps(Popped(p), accepted);
      case DrainOne => PopKeeps(p, accepted);
      case RecvNone => FlushKeeps(p, accepted);
      case Tick => FlushKeeps(p, accepted);
      case DrainEnd => FlushKeeps(p, accepted);
      case Disconnect =>
      case Shutdown =>
      case FlushDone =>
    }
  }

  /** No record is lost, duplicated or reordered on its way to the sink, and both queues stay bounded, under
      every schedule. */
  lemma {:induction false} NothingLost<R>(p: Pipe<R>, schedule: seq<Event<R>>, before: seq<R>)
    requires Holds(p, before) && Bounded(p)
    ensures Holds(Exec(p, schedule), before + Accepted(p, schedule)) && Bounded(Exec(p, schedule))
    decreases |schedule|
  {
    if schedule == [] {
      assert before + [] == before;
    } else {
      var e, now := schedule[0], before + NewlyAccepted(p, schedule[0]);
      StepKeeps(p, e, before);
      NothingLost(Step(p, e), schedule[1..], now);
      assert now + Accepted(Step(p, e), schedule[1..]) == before + Accepted(p, schedule);
    }
  }

  lemma {:induction false} ExecSplits<R>(p: Pipe<R>, a: seq<Event<R>>, b: seq<Event<R>>)
    ensures Exec(p, a + b) == Exec(Exec(p, a), b)
    decreases |a|
  {
    if a == [] {
      assert a + b == b;
    } else {
      assert (a + b)[1..] == a[1..] + b;
      ExecSplits(Step(p, a[0]), a[1..], b);
    }
  }

  /** Once the loop is left, nothing more is handed over. */
  lemma {:induction false} HandedIsFinal<R>(p: Pipe<R>, schedule: seq<Event<R>>)
    requires Bounded(p) && (p.phase == Finishing || p.phase == Exited)
    ensures Exec(p, schedule).handed == p.handed
    decreases |schedule|
  {
    if schedule != [] {
      HandedIsFinal(Step(p, schedule[0]), schedule[1..]);
    }
  }

  /** When the writer has left its loop (the drain after a shutdown has found the channel empty, or every
      sender is gone), the sink has been handed exactly the records accepted until then, each once and in
      order, whatever happens afterwards. */
  lemma ShutdownFlushesAll<R>(before: seq<Event<R>>, leave: Event<R>, after: seq<Event<R>>)
    requires leave == DrainEnd || leave == RecvNone
    requires Enabled(Exec(Empty(), before), leave)
    ensures Flatten(Exec(Empty(), before + [leave] + after).handed) == Accepted(Empty(), before)
  {
    var p := Exec<R>(Empty(), before);
    NothingLost<R>(Empty(), before, []);
    assert [] + Accepted(Empty(), before) == Accepted(Empty(), before);
    var accepted := Accepted<R>(Empty(), before);
    StepKeeps(p, leave, accepted);
    var q := Step(p, leave);
    assert q.buffer == [] && q.channel == [] && NewlyAccepted(p, leave) == [];
    assert accepted + [] == accepted;
    assert Flatten(q.handed) + q.buffer + q.channel == Flatten(q.handed);
    ExecSplits(Empty(), before + [leave], after);
    ExecSplits(Empty(), before, [leave]);
    assert Exec(p, [leave]) == q by { assert [leave][1..] == []; }
    HandedIsFinal(q, after);
  }

  // --- the shared objects and the loop ---

  /** `tokio::sync::mpsc` with its fixed capacity. */
  class Channel<R> {
    var queue: seq<R>
    var closed: bool

    constructor ()
      ensures queue == [] && !closed
    {
      queue, closed := [], false;
    }

    /** `UsageRecorder::record`: a full or closed channel drops the record, the caller never waits. */
    method TrySend(record: R) returns (accepted: bool)
      modifies this`queue
      ensures accepted <==> !closed && |old(queue)| < 1024
      ensures queue == if accepted then old(queue) + [record] else old(queue)
    {
      accepted := !closed && |queue| < CHANNEL_CAPACITY;
      if accepted {
        queue := queue + [record];
      }
    }

    method Pop() returns (record: R)
      requires queue != []
      modifies this`queue
      ensures [record] + queue == old(queue)
    {
      record, queue := queue[0], queue[1..];
    }
  }

  class Sink<R> {
    var batches: seq<seq<R>>

    constructor ()
      ensures batches == []
    {
      batches := [];
    }

    method Flush(batch: seq<R>)
      modifies this
      ensures batches == if batch == [] then old(batches) else old(batches) + [batch]
    {
      if batch != [] {
        batches := batches + [batch];
      }
    }
  }

  lemma ExecNext<R>(schedule: seq<Event<R>>, pos: nat)
    requires pos < |schedule|
    ensures Exec(Empty(), schedule[..pos + 1]) == Step(Exec(Empty(), schedule[..pos]), schedule[pos])
  {
    assert schedule[..pos + 1] == schedule[..pos] + [schedule[pos]];
    ExecSplits(Empty(), schedule[..pos], [schedule[pos]]);
    assert [schedule[pos]][1..] == [];
  }

  /** Producers and their handles; everything else is the writer's own. */
  predicate OfProducers<R>(e: Event<R>) {
    e.Send? || e.Disconnect?
  }

  /** Where the pipeline is when the writer holds `buffer`. */
  ghost function State<R>(channel: Channel<R>, sink: Sink<R>, buffer: seq<R>, busy: bool, phase: Phase,
                          connected: bool): Pipe<R>
    reads channel, sink
  {
    Pipe(channel.queue, buffer, sink.batches, busy, phase, connected)
  }

  /** The writer is suspended: producers run until it can take the branch the schedule picks for it, or the schedule
      ends. Picks that are not possible are passed over. */
  method Others<R>(channel: Channel<R>, sink: Sink<R>, schedule: seq<Event<R>>, from: nat, buffer: seq<R>, busy: bool,
                   phase: Phase, open: bool) returns (pos: nat, connected: bool)
    requires from <= |schedule| && channel.closed == (phase == Exited)
    requires State(channel, sink, buffer, busy, phase, open) == Exec(Empty(), schedule[..from])
    modifies channel`queue
    ensures from <= pos <= |schedule|
    ensures State(channel, sink, buffer, busy, phase, connected) == Exec(Empty(), schedule[..pos])
    ensures pos < |schedule| ==>
              !OfProducers(schedule[pos])
              && Enabled(State(channel, sink, buffer, busy, phase, connected), schedule[pos])
  {
    pos, connected := from, open;
    while pos < |schedule|
      invariant from <= pos <= |schedule|
      invariant State(channel, sink, buffer, busy, phase, connected) == Exec(Empty(), schedule[..pos])
    {
      var e := schedule[pos];
      ExecNext(schedule, pos);
      if e.Send? {
        if connected {
          var accepted := channel.TrySend(e.record);
        }
      } else if e.Disconnect? {
        connected := false;
      } else if Enabled(Pipe(channel.queue, buffer, sink.batches, busy, phase, connected), e) {
        return;
      }
      pos := pos + 1;
    }
  }

  /** `sink.flush(batch).await`: the batch is handed over, and the writer goes on when the sink is done. */
  method FlushAndWait<R>(channel: Channel<R>, sink: Sink<R>, schedule: seq<Event<R>>, from: nat, batch: seq<R>,
                         phase: Phase, open: bool) returns (done: bool, pos: nat, connected: bool)
    requires from <= |schedule| && batch != [] && (phase == Running || phase == Finishing) && !channel.closed
    requires StartFlush(State(channel, sink, batch, false, phase, open)) == Exec(Empty(), schedule[..from])
    modifies channel`queue, sink
    ensures from <= pos <= |schedule| && (done ==> from < pos) && (!done ==> pos == |schedule|)
    ensures State(channel, sink, [], !done, if done && phase == Finishing then Exited else phase, connected)
            == Exec(Empty(), schedule[..pos])
  {
    sink.Flush(batch);
    pos, connected := Others(channel, sink, schedule, from, [], true, phase, open);
    done := pos < |schedule|;
    if done {
      ExecNext(schedule, pos);
      pos := pos + 1;
    }
  }

  /** The shutdown branch: `try_recv` until the channel is empty. */
  method Drain<R>(channel: Channel<R>, sink: Sink<R>, schedule: seq<Event<R>>, from: nat, pending: seq<R>, open: bool)
    returns (pos: nat, buffer: seq<R>, connected: bool)
    requires from <= |schedule| && !channel.closed
    requires State(channel, sink, pending, false, Draining, open) == Exec(Empty(), schedule[..from])
    modifies channel`queue
    ensures from <= pos <= |schedule|
    ensures State(channel, sink, buffer, false, Draining, connected) == Exec(Empty(), schedule[..pos])
    ensures pos < |schedule| ==> schedule[pos] == DrainEnd && channel.queue == []
  {
    buffer := pending;
    pos, connected := Others(channel, sink, schedule, from, buffer, false, Draining, open);
    while pos < |schedule| && channel.queue != []
      invariant from <= pos <= |schedule|
      invariant State(channel, sink, buffer, false, Draining, connected) == Exec(Empty(), schedule[..pos])
      invariant pos < |schedule| ==>
                  !OfProducers(schedule[pos])
                  && Enabled(State(channel, sink, buffer, false, Draining, connected), schedule[pos])
      decreases |schedule| - pos
    {
      ExecNext(schedule, pos);
      var record := channel.Pop();
      buffer := buffer + [record];
      pos, connected := Others(channel, sink, schedule, pos + 1, buffer, false, Draining, connected);
    }
  }

  /** A record arrives: it is buffered, and a full batch is flushed. */
  method Receive<R>(channel: Channel<R>, sink: Sink<R>, schedule: seq<Event<R>>, from: nat, pending: seq<R>, open: bool)
    returns (done: bool, pos: nat, buffer: seq<R>, connected: bool)
    requires from < |schedule| && schedule[from] == Recv && !channel.closed
    requires State(channel, sink, pending, false, Running, open) == Exec(Empty(), schedule[..from])
    requires channel.queue != []
    modifies channel`queue, sink
    ensures from < pos <= |schedule| && (!done ==> pos == |schedule|)
    ensures State(channel, sink, buffer, !done, Running, connected) == Exec(Empty(), schedule[..pos])
  {
    ExecNext(schedule, from);
    var record := channel.Pop();
    done, pos, buffer, connected := true, from + 1, pending + [record], open;
    if |buffer| >= BATCH_SIZE {
      done, pos, connected := FlushAndWait(channel, sink, schedule, pos, buffer, Running, connected);
      buffer := [];
    }
  }

  /** The flush interval has passed. */
  method FlushOnTick<R>(channel: Channel<R>, sink: Sink<R>, schedule: seq<Event<R>>, from: nat, buffer: seq<R>,
                        open: bool) returns (done: bool, pos: nat, connected: bool)
    requires from < |schedule| && schedule[from] == Tick && !channel.closed
    requires State(channel, sink, buffer, false, Running, open) == Exec(Empty(), schedule[..from])
    modifies channel`queue, sink
    ensures from < pos <= |schedule| && (!done ==> pos == |schedule|)
    ensures State(channel, sink, [], !done, Running, connected) == Exec(Empty(), schedule[..pos])
  {
    ExecNext(schedule, from);
    done, pos, connected := true, from + 1, open;
    if buffer != [] {
      done, pos, connected := FlushAndWait(channel, sink, schedule, pos, buffer, Running, connected);
    }
  }

  /** `run_writer`, with everything around it interleaved by an arbitrary schedule; the schedule may end before the
      writer does. */
  method RunWriter<R>(channel: Channel<R>, sink: Sink<R>, schedule: seq<Event<R>>)
    requires channel.queue == [] && !channel.closed && sink.batches == []
    modifies channel, sink
    ensures sink.batches == Exec(Empty(), schedule).handed
    ensures channel.queue == Exec(Empty(), schedule).channel
    ensures Flatten(sink.batches) + Exec(Empty(), schedule).buffer + channel.queue == Accepted(Empty(), schedule)
  {
    NothingLost<R>(Empty(), schedule, []);
    assert [] + Accepted(Empty(), schedule) == Accepted(Empty(), schedule);
    assert schedule[..|schedule|] == schedule;
    var buffer: seq<R>, connected, done, pos := [], true, true, 0;
    while true
      invariant pos <= |schedule| && !channel.closed
      invariant State(channel, sink, buffer, false, Running, connected) == Exec(Empty(), schedule[..pos])
      decreases |schedule| - pos
    {
      pos, connected := Others(channel, sink, schedule, pos, buffer, false, Running, connected);
      if pos == |schedule| { return; }
      match schedule[pos] {
        case Recv =>
          done, pos, buffer, connected := Receive(channel, sink, schedule, pos, buffer, connected);
          if !done { return; }
        case Tick =>
          done, pos, connected := FlushOnTick(channel, sink, schedule, pos, buffer, connected);
          if !done { return; }
          buffer := [];
        case RecvNone =>
          Leave(channel, sink, schedule, pos, buffer, Running, connected);
          return;
        case Shutdown =>
          ExecNext(schedule, pos);
          pos, buffer, connected := Drain(channel, sink, schedule, pos + 1, buffer, connected);
          if pos < |schedule| {
            Leave(channel, sink, schedule, pos, buffer, Draining, connected);
          }
          return;
      }
    }
  }

  /** The final flush, and what producers still do after it. */
  method Leave<R>(channel: Channel<R>, sink: Sink<R>, schedule: seq<Event<R>>, from: nat, buffer: seq<R>, phase: Phase,
                  open: bool)
    requires from < |schedule| && !channel.closed && (schedule[from] == RecvNone || schedule[from] == DrainEnd)
    requires State(channel, sink, buffer, false, phase, open) == Exec(Empty(), schedule[..from])
    requires Enabled(State(channel, sink, buffer, false, phase, open), schedule[from])
    modifies channel, sink
    ensures sink.batches == Exec(Empty(), schedule).handed && channel.queue == Exec(Empty(), schedule).channel
  {
    assert schedule[..|schedule|] == schedule;
    ExecNext(schedule, from);
    var pos, connected := from + 1, open;
    if buffer != [] {
      var done: bool;
      done, pos, connected := FlushAndWait(channel, sink, schedule, pos, buffer, Finishing, connected);
      if !done { return; }
    }
    channel.closed := true;
    pos, connected := Others(channel, sink, schedule, pos, [], false, Exited, connected);
  }
}
