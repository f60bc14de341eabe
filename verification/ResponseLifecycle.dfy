/** The stdin side of a browser-capable Script. Every response frame gets a writer of its own, which
    puts it on the wire in bounded chunks and gives way at each of them; a chain of promises keeps the
    writers apart, and `close` waits for the tasks and for the end of the chain. */
module ResponseLifecycle {
  import opened Wrappers
  import opened Numbers
  import opened Sequences

  const MAX_WRITE_CHUNK_BYTES := 64 * 1024

  type Frame = seq<bv8>

  /** One call of `enqueueWrite`. Its loop starts once writer `after`, the tail of the chain at the time,
      has finished; `offset` bytes of `frame` are on the wire. */
  datatype Writer = Writer(frame: Frame, owner: nat, after: Option<nat>, offset: nat, done: bool)

  /** A dispatched request: its response is pending, its frame was given to writer `index`, or it was
      rejected after the close began. */
  datatype Request = Pending | Writing(index: nat) | Dropped

  /** Where `close` stands: not called, waiting for the broker, for the tasks there were when the broker
      was gone, or for the writer that was the tail when those had settled; or stdin has ended. */
  datatype Close = Open | ClosingBroker | SettlingTasks(waiting: set<nat>) | Draining(last: Option<nat>) | Ended

  /** `tasks` holds the requests whose task has not settled, `tail` is the last writer of the chain. */
  datatype State = State(accepting: bool, requests: map<nat, Request>, tasks: set<nat>,
                         writers: seq<Writer>, tail: Option<nat>, close: Close, wire: seq<Frame>)

  const Fresh := State(true, map[], {}, [], None, Open, [])

  /** What can happen between two awaits, in any order. */
  datatype Event =
    | Dispatch(id: nat)
    | Resolve(id: nat, frame: Frame)
    | Reject(id: nat, failureFrame: Frame)
    | WriteChunk(index: nat)
    | Settle(id: nat)
    | BeginClose
    | BrokerClosed
    | TasksSettled
    | TailDone

  /** The promise of writer `last` has settled; no writer stands for a promise resolved from the start. */
  predicate Finished(s: State, last: Option<nat>) {
    last.Some? ==> last.value < |s.writers| && s.writers[last.value].done
  }

  /** The loop of writer `i` is running. */
  predicate Active(s: State, i: nat) {
    i < |s.writers| && !s.writers[i].done && Finished(s, s.writers[i].after)
  }

  predicate AwaitsResponse(s: State, id: nat) {
    id in s.requests && s.requests[id].Pending?
  }

  /** A task awaits the writer of its request. */
  predicate Settles(s: State, id: nat) {
    id in s.requests && (s.requests[id].Dropped? || (s.requests[id].Writing? && Finished(s, Some(s.requests[id].index))))
  }

  function Enqueue(s: State, id: nat, frame: Frame): State {
    s.(writers := s.writers + [Writer(frame, id, s.tail, 0, false)], tail := Some(|s.writers|),
       requests := s.requests[id := Writing(|s.writers|)])
  }

  /** One turn of the loop of a writer, up to its next await. */
  function Turn(s: State, i: nat): State
    requires i < |s.writers|
  {
    var w := s.writers[i];
    if w.offset >= |w.frame| || s.close.Ended? then s.(writers := s.writers[i := w.(done := true)])
    else
      var end := Min(w.offset + MAX_WRITE_CHUNK_BYTES, |w.frame|);
      s.(wire := s.wire + [w.frame[w.offset..end]], writers := s.writers[i := w.(offset := end)])
  }

  function Apply(s: State, e: Event): State {
    match e
    case Dispatch(id) =>
      if s.accepting && id !in s.requests then s.(requests := s.requests[id := Pending], tasks := s.tasks + {id}) else s
    case Resolve(id, frame) => if AwaitsResponse(s, id) then Enqueue(s, id, frame) else s
    case Reject(id, failureFrame) =>
      if !AwaitsResponse(s, id) then s
      else if s.accepting then Enqueue(s, id, failureFrame)
      else s.(requests := s.requests[id := Dropped])
    case WriteChunk(i) => if Active(s, i) then Turn(s, i) else s
    case Settle(id) => if Settles(s, id) then s.(tasks := s.tasks - {id}) else s
    case BeginClose => if s.close.Open? then s.(accepting := false, close := ClosingBroker) else s
    case BrokerClosed => if s.close.ClosingBroker? then s.(close := SettlingTasks(s.tasks)) else s
    case TasksSettled => if s.close.SettlingTasks? && s.close.waiting !! s.tasks then s.(close := Draining(s.tail)) else s
    case TailDone => if s.close.Draining? && Finished(s, s.close.last) then s.(close := Ended) else s
  }

  function Run(s: State, events: seq<Event>): State {
    if events == [] then s else Apply(Run(s, events[..|events| - 1]), events[|events| - 1])
  }

  lemma RunSnoc(s: State, events: seq<Event>, e: Event)
    ensures Run(s, events + [e]) == Apply(Run(s, events), e)
  {
    assert (events + [e])[..|events|] == events;
  }

  // ---------------------------------------------------------------- what every interleaving keeps

  function Before(i: nat): Option<nat> { if i == 0 then None else Some(i - 1) }

  /** Each writer waits for the one enqueued before it, and the tail is the last. */
  predicate Chained(s: State) {
    && (forall i :: 0 <= i < |s.writers| ==> s.writers[i].after == Before(i))
    && s.tail == Before(|s.writers|)
  }

  predicate Started(w: Writer) { w.done || w.offset > 0 }

  /** A writer does nothing before all earlier ones have written their whole frame. */
  predicate Serial(writers: seq<Writer>) {
    && (forall i :: 0 <= i < |writers| ==> writers[i].offset <= |writers[i].frame|)
    && (forall i :: 0 <= i < |writers| && writers[i].done ==> writers[i].offset == |writers[i].frame|)
    && (forall i, j :: 0 <= i < j < |writers| && Started(writers[j]) ==> writers[i].done)
  }

  function Sent(writers: seq<Writer>): Frame {
    if writers == [] then [] else Sent(writers[..|writers| - 1]) + Part(writers[|writers| - 1])
  }

  function Part(w: Writer): Frame { w.frame[..Min(w.offset, |w.frame|)] }

  predicate WireOk(s: State) {
    && Flatten(s.wire) == Sent(s.writers)
    && forall i :: 0 <= i < |s.wire| ==> 0 < |s.wire[i]| <= MAX_WRITE_CHUNK_BYTES
  }

  predicate RequestsOk(s: State) {
    && (forall i :: 0 <= i < |s.writers| ==> s.writers[i].owner in s.requests && s.requests[s.writers[i].owner] == Writing(i))
    && (forall id :: id in s.requests && s.requests[id].Writing? ==>
          s.requests[id].index < |s.writers| && s.writers[s.requests[id].index].owner == id)
    && (forall id :: id in s.requests && s.requests[id].Dropped? ==> !s.accepting)
    && (forall id :: id in s.requests && id !in s.tasks ==> Settles(s, id))
    && s.tasks <= s.requests.Keys
  }

  predicate CloseOk(s: State) {
    && (s.accepting <==> s.close.Open?)
    && (s.close.SettlingTasks? ==> s.tasks <= s.close.waiting)
    && (s.close.Draining? ==> s.tasks == {} && s.close.last == s.tail)
    && (s.close.Ended? ==> s.tasks == {})
  }

  predicate Consistent(s: State) {
    Chained(s) && Serial(s.writers) && WireOk(s) && RequestsOk(s) && CloseOk(s)
  }

  /** The chain lets at most one writer run at a time. */
  lemma AtMostOneWriterRuns(s: State, i: nat, j: nat)
    requires Chained(s) && Serial(s.writers) && Active(s, i) && Active(s, j)
    ensures i == j
  {
    ActiveIsFront(s, i);
    ActiveIsFront(s, j);
  }

  /** While writer `i` runs, all before it are done and none behind it has begun. */
  lemma ActiveIsFront(s: State, i: nat)
    requires Chained(s) && Serial(s.writers) && Active(s, i)
    ensures forall k :: 0 <= k < i ==> s.writers[k].done
    ensures forall k :: i < k < |s.writers| ==> !Started(s.writers[k])
  {
    if i > 0 {
      assert s.writers[i - 1].done && Started(s.writers[i - 1]);
    }
  }

  lemma SentGrowsAtTheEnd(writers: seq<Writer>, w: Writer, chunk: Frame)
    requires writers != [] && Part(w) == Part(writers[|writers| - 1]) + chunk
    ensures Sent(writers[|writers| - 1 := w]) == Sent(writers) + chunk
  {
    var n := |writers| - 1;
    assert writers[n := w][..n] == writers[..n];
    assert Sent(writers[..n]) + (Part(writers[n]) + chunk) == Sent(writers[..n]) + Part(writers[n]) + chunk;
  }

  /** A chunk of the last writer that has begun is appended to what was sent. */
  lemma {:induction false} SentGrows(writers: seq<Writer>, i: nat, w: Writer, chunk: Frame)
    requires i < |writers| && Part(w) == Part(writers[i]) + chunk
    requires chunk == [] || forall k :: i < k < |writers| ==> !Started(writers[k])
    ensures Sent(writers[i := w]) == Sent(writers) + chunk
  {
    var n := |writers| - 1;
    if i == n {
      SentGrowsAtTheEnd(writers, w, chunk);
    } else {
      SentGrows(writers[..n], i, w, chunk);
      assert writers[i := w][..n] == writers[..n][i := w];
      assert chunk == [] || Part(writers[n]) == [];
    }
  }

  lemma TurnKeepsOrder(s: State, i: nat)
    requires Consistent(s) && Active(s, i) && !s.close.Ended?
    ensures var s' := Turn(s, i); Chained(s') && Serial(s'.writers)
  {
    ActiveIsFront(s, i);
  }

  lemma ChunkKeepsWire(s: State, i: nat)
    requires WireOk(s) && i < |s.writers| && s.writers[i].offset < |s.writers[i].frame| && !s.close.Ended?
    requires forall k :: i < k < |s.writers| ==> !Started(s.writers[k])
    ensures WireOk(Turn(s, i))
  {
    var w, w' := s.writers[i], Turn(s, i).writers[i];
    var chunk := w.frame[w.offset..w'.offset];
    FlattenSnoc(s.wire, chunk);
    assert Part(w') == Part(w) + chunk;
    SentGrows(s.writers, i, w', chunk);
  }

  lemma TurnKeepsWire(s: State, i: nat)
    requires Chained(s) && Serial(s.writers) && WireOk(s) && Active(s, i) && !s.close.Ended?
    ensures WireOk(Turn(s, i))
  {
    if s.writers[i].offset < |s.writers[i].frame| {
      ActiveIsFront(s, i);
      ChunkKeepsWire(s, i);
    } else {
      SentGrows(s.writers, i, s.writers[i].(done := true), []);
    }
  }

  lemma TurnKeepsRequests(s: State, i: nat)
    requires Consistent(s) && i < |s.writers|
    ensures RequestsOk(Turn(s, i)) && CloseOk(Turn(s, i))
  {
    var s' := Turn(s, i);
    forall id | id in s'.requests && id !in s'.tasks ensures Settles(s', id) { assert Settles(s, id); }
  }

  lemma TurnKeeps(s: State, i: nat)
    requires Consistent(s) && Active(s, i) && !s.close.Ended?
    ensures Consistent(Turn(s, i))
  {
    TurnKeepsOrder(s, i);
    TurnKeepsWire(s, i);
    TurnKeepsRequests(s, i);
  }

  /** Once every task has settled the chain has come to its end. */
  lemma NoTasksMeansAllDone(s: State)
    requires Consistent(s) && s.tasks == {}
    ensures forall i :: 0 <= i < |s.writers| ==> s.writers[i].done
    ensures forall id :: id in s.requests ==> !s.requests[id].Pending?
  {
    forall i | 0 <= i < |s.writers| ensures s.writers[i].done { assert Settles(s, s.writers[i].owner); }
    forall id | id in s.requests ensures !s.requests[id].Pending? { assert Settles(s, id); }
  }

  lemma EnqueueKeepsOrder(s: State, id: nat, frame: Frame)
    requires Chained(s) && Serial(s.writers)
    ensures Chained(Enqueue(s, id, frame)) && Serial(Enqueue(s, id, frame).writers)
  {
  }

  lemma EnqueueKeepsWire(s: State, id: nat, frame: Frame)
    requires WireOk(s)
    ensures WireOk(Enqueue(s, id, frame))
  {
    var s' := Enqueue(s, id, frame);
    assert s'.writers[..|s.writers|] == s.writers;
    assert Part(s'.writers[|s.writers|]) == [];
  }

  lemma EnqueueKeepsRequests(s: State, id: nat, frame: Frame)
    requires Consistent(s) && AwaitsResponse(s, id)
    ensures RequestsOk(Enqueue(s, id, frame)) && CloseOk(Enqueue(s, id, frame))
  {
    var s' := Enqueue(s, id, frame);
    assert !Settles(s, id);
    forall k | k in s'.requests && k !in s'.tasks ensures Settles(s', k) { assert Settles(s, k); }
  }

  lemma EnqueueKeeps(s: State, id: nat, frame: Frame)
    requires Consistent(s) && AwaitsResponse(s, id)
    ensures Consistent(Enqueue(s, id, frame))
  {
    EnqueueKeepsOrder(s, id, frame);
    EnqueueKeepsWire(s, id, frame);
    EnqueueKeepsRequests(s, id, frame);
  }

  lemma ResponseKeeps(s: State, e: Event)
    requires Consistent(s) && (e.Resolve? || e.Reject?)
    ensures Consistent(Apply(s, e))
  {
    if AwaitsResponse(s, e.id) {
      if e.Resolve? {
        EnqueueKeeps(s, e.id, e.frame);
      } else if s.accepting {
        EnqueueKeeps(s, e.id, e.failureFrame);
      } else {
        var s' := Apply(s, e);
        forall k | k in s'.requests && k !in s'.tasks ensures Settles(s', k) { assert k != e.id ==> Settles(s, k); }
      }
    }
  }

  lemma DispatchKeeps(s: State, id: nat)
    requires Consistent(s)
    ensures Consistent(Apply(s, Dispatch(id)))
  {
    var s' := Apply(s, Dispatch(id));
    forall k | k in s'.requests && k !in s'.tasks ensures Settles(s', k) { assert Settles(s, k); }
  }

  lemma SettleKeeps(s: State, id: nat)
    requires Consistent(s)
    ensures Consistent(Apply(s, Settle(id)))
  {
    var s' := Apply(s, Settle(id));
    forall k | k in s'.requests && k !in s'.tasks ensures Settles(s', k) { assert Settles(s, k); }
  }

  lemma CloseKeeps(s: State, e: Event)
    requires Consistent(s) && (e.BeginClose? || e.BrokerClosed? || e.TasksSettled? || e.TailDone?)
    ensures Consistent(Apply(s, e))
  {
    var s' := Apply(s, e);
    forall k | k in s'.requests && k !in s'.tasks ensures Settles(s', k) { assert Settles(s, k); }
    if e.TasksSettled? && s.close.SettlingTasks? && s.close.waiting !! s.tasks {
      assert s.tasks == s.close.waiting * s.tasks;
    }
  }

  lemma ApplyKeeps(s: State, e: Event)
    requires Consistent(s)
    ensures Consistent(Apply(s, e))
  {
    match e
    case WriteChunk(i) =>
      if Active(s, i) {
        if s.close.Ended? { NoTasksMeansAllDone(s); }
        TurnKeeps(s, i);
      }
    case Resolve(_, _) => ResponseKeeps(s, e);
    case Reject(_, _) => ResponseKeeps(s, e);
    case Dispatch(id) => DispatchKeeps(s, id);
    case Settle(id) => SettleKeeps(s, id);
    case _ => CloseKeeps(s, e);
  }

  lemma {:induction false} RunKeeps(s: State, events: seq<Event>)
    requires Consistent(s)
    ensures Consistent(Run(s, events))
  {
    if events != [] {
      RunKeeps(s, events[..|events| - 1]);
      ApplyKeeps(Run(s, events[..|events| - 1]), events[|events| - 1]);
    }
  }

  // ---------------------------------------------------------------- what is on the wire

  /** The first writer that has not finished, if it has begun or everything before it is done. */
  function Front(writers: seq<Writer>): (n: nat)
    ensures n <= |writers|
  {
    if writers == [] then 0 else if writers[|writers| - 1].done then |writers| else Front(writers[..|writers| - 1])
  }

  function Frames(writers: seq<Writer>): (frames: seq<Frame>)
    ensures |frames| == |writers| && forall i :: 0 <= i < |writers| ==> frames[i] == writers[i].frame
  {
    if writers == [] then [] else Frames(writers[..|writers| - 1]) + [writers[|writers| - 1].frame]
  }

  lemma {:induction false} AllDoneIsAllSent(writers: seq<Writer>)
    requires Serial(writers) && forall i :: 0 <= i < |writers| ==> writers[i].done
    ensures Sent(writers) == Flatten(Frames(writers))
  {
    if writers != [] {
      var init, last := writers[..|writers| - 1], writers[|writers| - 1];
      AllDoneIsAllSent(init);
      FlattenSnoc(Frames(init), last.frame);
      assert Part(last) == last.frame;
    }
  }

  /** What is on the wire of the frame whose turn it is. */
  function InFlight(writers: seq<Writer>): Frame {
    if Front(writers) < |writers| then Part(writers[Front(writers)]) else []
  }

  /** Everything before a writer that has begun is done. */
  lemma FrontOfBegun(writers: seq<Writer>)
    requires Serial(writers) && writers != [] && !writers[|writers| - 1].done && writers[|writers| - 1].offset > 0
    ensures Front(writers) == |writers| - 1 && forall i :: 0 <= i < |writers| - 1 ==> writers[i].done
  {
    assert Started(writers[|writers| - 1]);
    assert |writers| > 1 ==> writers[|writers| - 2].done;
  }

  lemma {:induction false} FrontDivides(writers: seq<Writer>)
    requires Serial(writers)
    ensures forall i :: 0 <= i < |writers| ==> (writers[i].done <==> i < Front(writers))
    ensures forall i :: Front(writers) < i < |writers| ==> !Started(writers[i])
  {
    if writers != [] {
      var init, last := writers[..|writers| - 1], writers[|writers| - 1];
      FrontDivides(init);
      if last.done {
        assert Started(last);
      } else if last.offset > 0 {
        FrontOfBegun(writers);
      }
    }
  }

  predicate WholeFramesSent(writers: seq<Writer>) {
    Sent(writers) == Flatten(Frames(writers[..Front(writers)])) + InFlight(writers)
  }

  lemma LastDone(writers: seq<Writer>)
    requires Serial(writers) && writers != [] && writers[|writers| - 1].done
    ensures WholeFramesSent(writers)
  {
    assert Started(writers[|writers| - 1]);
    AllDoneIsAllSent(writers);
    assert writers[..|writers|] == writers;
  }

  lemma LastBegun(writers: seq<Writer>)
    requires Serial(writers) && writers != [] && !writers[|writers| - 1].done && writers[|writers| - 1].offset > 0
    ensures WholeFramesSent(writers)
  {
    FrontOfBegun(writers);
    AllDoneIsAllSent(writers[..|writers| - 1]);
  }

  lemma LastWaits(writers: seq<Writer>)
    requires writers != [] && !Started(writers[|writers| - 1]) && WholeFramesSent(writers[..|writers| - 1])
    ensures WholeFramesSent(writers)
  {
    var init := writers[..|writers| - 1];
    assert writers[..Front(init)] == init[..Front(init)];
    assert Part(writers[|writers| - 1]) == [];
  }

  lemma {:induction false} SentIsWholeFrames(writers: seq<Writer>)
    requires Serial(writers)
    ensures WholeFramesSent(writers)
  {
    if writers != [] {
      var last := writers[|writers| - 1];
      if last.done {
        LastDone(writers);
      } else if last.offset > 0 {
        LastBegun(writers);
      } else {
        SentIsWholeFrames(writers[..|writers| - 1]);
        LastWaits(writers);
      }
    }
  }

  /** In every interleaving the wire carries whole frames in the order of enqueueing, then a part of
      the next, in non-empty chunks of at most 64 KiB, and no two writers ever run at once. */
  lemma WireCarriesWholeFrames(events: seq<Event>)
    ensures var s := Run(Fresh, events); var n := Front(s.writers);
      && Flatten(s.wire) == Flatten(Frames(s.writers[..n])) + InFlight(s.writers)
      && (forall i :: 0 <= i < |s.writers| ==> (s.writers[i].done <==> i < n))
      && (forall i :: 0 <= i < |s.wire| ==> 0 < |s.wire[i]| <= MAX_WRITE_CHUNK_BYTES)
      && (forall i, j: nat :: Active(s, i) && Active(s, j) ==> i == j)
  {
    assert Consistent(Fresh);
    RunKeeps(Fresh, events);
    var s := Run(Fresh, events);
    SentIsWholeFrames(s.writers);
    FrontDivides(s.writers);
    forall i: nat, j: nat | Active(s, i) && Active(s, j) ensures i == j { AtMostOneWriterRuns(s, i, j); }
  }

  /** When stdin has ended, every frame is on the wire, and every request dispatched while open either
      owns exactly one of them or was rejected after the close began. */
  lemma EndComesAfterEverything(events: seq<Event>)
    requires Run(Fresh, events).close.Ended?
    ensures var s := Run(Fresh, events);
      && Flatten(s.wire) == Flatten(Frames(s.writers))
      && (forall id :: id in s.requests ==> !s.requests[id].Pending?)
      && (forall id, i :: id in s.requests && 0 <= i < |s.writers| ==> (s.writers[i].owner == id <==> s.requests[id] == Writing(i)))
  {
    assert Consistent(Fresh);
    RunKeeps(Fresh, events);
    NoTasksMeansAllDone(Run(Fresh, events));
    AllDoneIsAllSent(Run(Fresh, events).writers);
  }

  // ---------------------------------------------------------------- what one event settles for good

  predicate SameFrame(w: Writer, w': Writer) { w'.frame == w.frame && w'.owner == w.owner }

  /** Later events only append to the chain and to the wire, and never touch a request that is no longer
      pending. */
  predicate Extends(s: State, s': State) {
    && |s.writers| <= |s'.writers| && (forall i :: 0 <= i < |s.writers| ==> SameFrame(s.writers[i], s'.writers[i]))
    && s.wire <= s'.wire
    && (s'.accepting ==> s.accepting) && (s.close.Ended? ==> s'.close.Ended?)
    && (forall id :: id in s.requests ==> id in s'.requests)
    && (forall id :: id in s.requests && !s.requests[id].Pending? ==> s'.requests[id] == s.requests[id])
  }

  lemma ApplyExtends(s: State, e: Event)
    ensures Extends(s, Apply(s, e))
  {
  }

  lemma ExtendsTransitive(a: State, b: State, c: State)
    requires Extends(a, b) && Extends(b, c)
    ensures Extends(a, c)
  {
  }

  lemma {:induction false} RunExtends(s: State, events: seq<Event>)
    ensures Extends(s, Run(s, events))
  {
    if events != [] {
      var before := Run(s, events[..|events| - 1]);
      RunExtends(s, events[..|events| - 1]);
      ApplyExtends(before, events[|events| - 1]);
      ExtendsTransitive(s, before, Run(s, events));
    }
  }

  /** Frame `frame` of request `id` is the only one of that request in the chain, at place `i`, and on the
      wire in full once stdin has ended. */
  predicate WrittenOnce(s: State, id: nat, frame: Frame, i: nat) {
    && id in s.requests && s.requests[id] == Writing(i) && i < |s.writers| && s.writers[i].frame == frame
    && (forall k :: 0 <= k < |s.writers| && s.writers[k].owner == id ==> k == i)
    && (s.close.Ended? ==> s.writers[i].done && Flatten(s.wire) == Flatten(Frames(s.writers)) && Frames(s.writers)[i] == frame)
  }

  lemma EnqueuedFrameIsWrittenOnce(s: State, id: nat, frame: Frame, events: seq<Event>)
    requires Consistent(s) && AwaitsResponse(s, id)
    ensures WrittenOnce(Run(Enqueue(s, id, frame), events), id, frame, |s.writers|)
  {
    var s1 := Enqueue(s, id, frame);
    var s' := Run(s1, events);
    EnqueueKeeps(s, id, frame);
    RunKeeps(s1, events);
    RunExtends(s1, events);
    assert SameFrame(s1.writers[|s.writers|], s'.writers[|s.writers|]);
    if s'.close.Ended? {
      NoTasksMeansAllDone(s');
      AllDoneIsAllSent(s'.writers);
    }
  }

  /** A request that resolves, even during the close, has its response written exactly once. */
  lemma ResolvedFrameIsWrittenOnce(s: State, id: nat, frame: Frame, events: seq<Event>)
    requires Consistent(s) && AwaitsResponse(s, id)
    ensures WrittenOnce(Run(Apply(s, Resolve(id, frame)), events), id, frame, |s.writers|)
  {
    EnqueuedFrameIsWrittenOnce(s, id, frame, events);
  }

  /** A request that is rejected before the close begins has its failure frame written exactly once. */
  lemma EarlyRejectionIsWrittenOnce(s: State, id: nat, failureFrame: Frame, events: seq<Event>)
    requires Consistent(s) && AwaitsResponse(s, id) && s.close.Open?
    ensures WrittenOnce(Run(Apply(s, Reject(id, failureFrame)), events), id, failureFrame, |s.writers|)
  {
    EnqueuedFrameIsWrittenOnce(s, id, failureFrame, events);
  }

  /** A new request is taken up exactly while the close has not begun. */
  lemma DispatchWhileOpen(s: State, id: nat)
    requires Consistent(s) && id !in s.requests
    ensures var s' := Apply(s, Dispatch(id));
      if s.close.Open? then AwaitsResponse(s', id) && s'.tasks == s.tasks + {id} && s'.writers == s.writers && s'.wire == s.wire
      else s' == s
  {
  }

  /** A request that is rejected after the close began never gets a writer. */
  lemma LateRejectionWritesNothing(s: State, id: nat, frame: Frame, events: seq<Event>)
    requires Consistent(s) && AwaitsResponse(s, id) && !s.accepting
    ensures var s' := Apply(s, Reject(id, frame));
      && s'.writers == s.writers && s'.wire == s.wire
      && forall i :: 0 <= i < |Run(s', events).writers| ==> Run(s', events).writers[i].owner != id
  {
    var s' := Apply(s, Reject(id, frame));
    ApplyKeeps(s, Reject(id, frame));
    RunKeeps(s', events);
    RunExtends(s', events);
  }

  /** After `end()` nothing is dispatched, enqueued or written any more. */
  lemma {:induction false} EndIsFinal(s: State, events: seq<Event>)
    requires Consistent(s) && s.close.Ended?
    ensures Run(s, events) == s
  {
    if events != [] {
      var e := events[|events| - 1];
      EndIsFinal(s, events[..|events| - 1]);
      NoTasksMeansAllDone(s);
      assert s.tasks - {if e.Settle? then e.id else 0} == s.tasks;
    }
  }

  // ---------------------------------------------------------------- the close does come to its end

  function Left(writers: seq<Writer>): nat {
    if writers == [] then 0 else Left(writers[..|writers| - 1]) + LeftOf(writers[|writers| - 1])
  }

  function LeftOf(w: Writer): nat {
    if w.done then 0 else if w.offset <= |w.frame| then 1 + |w.frame| - w.offset else 1
  }

  lemma {:induction false} LessIsLeft(writers: seq<Writer>, i: nat, w: Writer)
    requires i < |writers| && LeftOf(w) < LeftOf(writers[i])
    ensures Left(writers[i := w]) < Left(writers)
  {
    var n := |writers| - 1;
    if i == n {
      assert writers[i := w][..n] == writers[..n];
    } else {
      LessIsLeft(writers[..n], i, w);
      assert writers[i := w][..n] == writers[..n][i := w];
    }
  }

  function Steps(close: Close): nat {
    match close case Open => 4 case ClosingBroker => 3 case SettlingTasks(_) => 2 case Draining(_) => 1 case Ended => 0
  }

  /** An unfinished writer whose predecessors are done can run. */
  lemma {:induction false} SomeWriterRuns(s: State, i: nat) returns (k: nat)
    requires Chained(s) && i < |s.writers| && !s.writers[i].done
    ensures k <= i && Active(s, k)
    decreases i
  {
    if i > 0 && !s.writers[i - 1].done {
      k := SomeWriterRuns(s, i - 1);
    } else {
      k := i;
    }
  }

  predicate AllResponded(s: State) {
    forall id :: id in s.requests ==> !s.requests[id].Pending?
  }

  /** The end of the close is nearer in `s'` than in `s`. */
  predicate Nearer(s: State, s': State) {
    || Left(s'.writers) < Left(s.writers)
    || (s'.writers == s.writers && (|s'.tasks| < |s.tasks| || (s'.tasks == s.tasks && Steps(s'.close) < Steps(s.close))))
  }

  predicate Finishing(s: State) {
    Consistent(s) && !s.accepting && AllResponded(s)
  }

  lemma WriterAdvances(s: State, i: nat)
    requires Finishing(s) && Active(s, i) && !s.close.Ended?
    ensures Finishing(Turn(s, i)) && Nearer(s, Turn(s, i))
  {
    TurnKeeps(s, i);
    LessIsLeft(s.writers, i, Turn(s, i).writers[i]);
  }

  lemma TaskAdvances(s: State, id: nat)
    requires Finishing(s) && id in s.tasks && forall i :: 0 <= i < |s.writers| ==> s.writers[i].done
    ensures Finishing(Apply(s, Settle(id))) && Nearer(s, Apply(s, Settle(id)))
  {
    assert Settles(s, id);
    SettleKeeps(s, id);
    assert |s.tasks - {id}| < |s.tasks|;
  }

  lemma CloserMoves(s: State, e: Event)
    requires Chained(s) && CloseOk(s) && !s.accepting && s.tasks == {} && !s.close.Ended?
    requires forall i :: 0 <= i < |s.writers| ==> s.writers[i].done
    requires e == if s.close.ClosingBroker? then BrokerClosed else if s.close.SettlingTasks? then TasksSettled else TailDone
    ensures Apply(s, e) == s.(close := Apply(s, e).close) && Steps(Apply(s, e).close) < Steps(s.close)
  {
  }

  lemma CloserAdvances(s: State, e: Event)
    requires Finishing(s) && s.tasks == {} && !s.close.Ended? && forall i :: 0 <= i < |s.writers| ==> s.writers[i].done
    requires e == if s.close.ClosingBroker? then BrokerClosed else if s.close.SettlingTasks? then TasksSettled else TailDone
    ensures Finishing(Apply(s, e)) && Nearer(s, Apply(s, e))
  {
    CloserMoves(s, e);
    CloseKeeps(s, e);
  }

  /** One more step is possible, and it brings the end of the close nearer. */
  lemma CloseAdvances(s: State) returns (e: Event)
    requires Finishing(s) && !s.close.Ended?
    ensures Finishing(Apply(s, e)) && Nearer(s, Apply(s, e))
  {
    if i :| 0 <= i < |s.writers| && !s.writers[i].done {
      var k := SomeWriterRuns(s, i);
      WriterAdvances(s, k);
      e := WriteChunk(k);
    } else if id :| id in s.tasks {
      TaskAdvances(s, id);
      e := Settle(id);
    } else {
      e := if s.close.ClosingBroker? then BrokerClosed else if s.close.SettlingTasks? then TasksSettled else TailDone;
      CloserAdvances(s, e);
    }
  }

  /** No deadlock: from every state of a close in which all responses have come there is a way to its
      end, where by what was shown above every frame is on the wire. */
  lemma {:induction false} CloseCanFinish(s: State) returns (events: seq<Event>)
    requires Finishing(s)
    ensures Run(s, events).close.Ended?
    decreases Left(s.writers), |s.tasks|, Steps(s.close)
  {
    events := [];
    if !s.close.Ended? {
      var e := CloseAdvances(s);
      var later := CloseCanFinish(Apply(s, e));
      events := [e] + later;
      RunCons(s, e, later);
    }
  }

  lemma {:induction false} RunCons(s: State, e: Event, events: seq<Event>)
    ensures Run(s, [e] + events) == Run(Apply(s, e), events)
    decreases |events|
  {
    var all := [e] + events;
    if events == [] {
      assert all[..0] == [];
    } else {
      assert all[..|all| - 1] == [e] + events[..|events| - 1];
      RunCons(s, e, events[..|events| - 1]);
    }
  }

  /** The state of one request whose response comes during the close: its writer is `w`. */
  function LateResponse(w: Writer, tasks: set<nat>, close: Close, wire: seq<Frame>): State {
    State(false, map[1 := Writing(0)], tasks, [w], Some(0), close, wire)
  }

  lemma LateResponseIsQueued(frame: Frame) returns (events: seq<Event>)
    ensures Run(Fresh, events) == LateResponse(Writer(frame, 1, None, 0, false), {1}, SettlingTasks({1}), [])
  {
    events := [];
    RunSnoc(Fresh, events, Dispatch(1));
    events := events + [Dispatch(1)];
    RunSnoc(Fresh, events, BeginClose);
    events := events + [BeginClose];
    assert Run(Fresh, events) == State(false, map[1 := Pending], {1}, [], None, ClosingBroker, []);
    RunSnoc(Fresh, events, Resolve(1, frame));
    events := events + [Resolve(1, frame)];
    assert map[1 := Pending][1 := Writing(0)] == map[1 := Writing(0)];
    RunSnoc(Fresh, events, BrokerClosed);
    events := events + [BrokerClosed];
  }

  /** The close does come to its end: here after a response that came while the broker was closing. */
  lemma SomeCloseEnds(frame: Frame) returns (events: seq<Event>)
    requires 0 < |frame| <= MAX_WRITE_CHUNK_BYTES
    ensures Run(Fresh, events) == LateResponse(Writer(frame, 1, None, |frame|, true), {}, Ended, [frame])
  {
    events := LateResponseIsQueued(frame);
    RunSnoc(Fresh, events, WriteChunk(0));
    events := events + [WriteChunk(0)];
    assert frame[0..|frame|] == frame;
    assert Run(Fresh, events) == LateResponse(Writer(frame, 1, None, |frame|, false), {1}, SettlingTasks({1}), [frame]);
    RunSnoc(Fresh, events, WriteChunk(0));
    events := events + [WriteChunk(0)];
    RunSnoc(Fresh, events, Settle(1));
    events := events + [Settle(1)];
    assert Run(Fresh, events) == LateResponse(Writer(frame, 1, None, |frame|, true), {}, SettlingTasks({1}), [frame]);
    RunSnoc(Fresh, events, TasksSettled);
    events := events + [TasksSettled];
    RunSnoc(Fresh, events, TailDone);
    events := events + [TailDone];
  }

  // ---------------------------------------------------------------- the handlers and the write loop

  /** Writer `i` runs to its end with no other handler in between. */
  function Loop(s: State, i: nat): State
    requires i < |s.writers| && !s.close.Ended?
    decreases |s.writers[i].frame| - s.writers[i].offset
  {
    if s.writers[i].offset >= |s.writers[i].frame| then Turn(s, i) else Loop(Turn(s, i), i)
  }

  /** The least number of chunks that hold `n` bytes. */
  function FewestChunks(n: nat): nat { (n + MAX_WRITE_CHUNK_BYTES - 1) / MAX_WRITE_CHUNK_BYTES }

  lemma {:induction false} LoopFinishes(s: State, i: nat)
    requires i < |s.writers| && s.writers[i].offset <= |s.writers[i].frame| && !s.close.Ended?
    ensures var s' := Loop(s, i); var w := s.writers[i];
      s' == s.(wire := s'.wire, writers := s.writers[i := w.(offset := |w.frame|, done := true)])
    decreases |s.writers[i].frame| - s.writers[i].offset
  {
    var w, s1 := s.writers[i], Turn(s, i);
    if w.offset < |w.frame| {
      LoopFinishes(s1, i);
      var finished := w.(offset := |w.frame|, done := true);
      assert s1.writers[i := finished] == s.writers[i := finished];
    }
  }

  /** The loop puts what is left of its frame on the wire. */
  lemma {:induction false} LoopWritesWholeFrame(s: State, i: nat)
    requires i < |s.writers| && s.writers[i].offset <= |s.writers[i].frame| && !s.close.Ended?
    ensures Flatten(Loop(s, i).wire) == Flatten(s.wire) + s.writers[i].frame[s.writers[i].offset..]
    decreases |s.writers[i].frame| - s.writers[i].offset
  {
    var w, s1 := s.writers[i], Turn(s, i);
    if w.offset < |w.frame| {
      LoopWritesWholeFrame(s1, i);
      var end := s1.writers[i].offset;
      FlattenSnoc(s.wire, w.frame[w.offset..end]);
      Rejoin(Flatten(s.wire), w.frame, w.offset, end);
    }
  }

  lemma Rejoin(before: Frame, frame: Frame, i: nat, j: nat)
    requires i <= j <= |frame|
    ensures before + frame[i..j] + frame[j..] == before + frame[i..]
  {
  }

  lemma OneChunkFewer(n: nat)
    ensures FewestChunks(n) == if n == 0 then 0 else 1 + FewestChunks(Max(0, n - MAX_WRITE_CHUNK_BYTES))
  {
  }

  lemma {:induction false} LoopWritesFewestChunks(s: State, i: nat)
    requires i < |s.writers| && s.writers[i].offset <= |s.writers[i].frame| && !s.close.Ended?
    ensures |Loop(s, i).wire| == |s.wire| + FewestChunks(|s.writers[i].frame| - s.writers[i].offset)
    decreases |s.writers[i].frame| - s.writers[i].offset
  {
    OneChunkFewer(|s.writers[i].frame| - s.writers[i].offset);
    if s.writers[i].offset < |s.writers[i].frame| { LoopWritesFewestChunks(Turn(s, i), i); }
  }

  /** All a loop does: it finishes its writer, touches no other, and puts exactly what is left of its
      frame on the wire, in as few chunks as the bound allows. */
  lemma LoopDoesItsWork(s: State, i: nat)
    requires Consistent(s) && Active(s, i) && !s.close.Ended?
    ensures var s', w := Loop(s, i), s.writers[i];
      && Consistent(s') && s' == s.(wire := s'.wire, writers := s.writers[i := w.(offset := |w.frame|, done := true)])
      && Flatten(s'.wire) == Flatten(s.wire) + w.frame[w.offset..]
      && |s'.wire| == |s.wire| + FewestChunks(|w.frame| - w.offset)
  {
    LoopFinishes(s, i);
    LoopWritesWholeFrame(s, i);
    LoopWritesFewestChunks(s, i);
    LoopKeeps(s, i);
  }

  /** Each turn of the loop is an event of the protocol. */
  lemma {:induction false} LoopKeeps(s: State, i: nat)
    requires Consistent(s) && Active(s, i) && !s.close.Ended?
    ensures Consistent(Loop(s, i))
    decreases |s.writers[i].frame| - s.writers[i].offset
  {
    TurnKeeps(s, i);
    if s.writers[i].offset < |s.writers[i].frame| { LoopKeeps(Turn(s, i), i); }
  }

  /** Each method is what runs between two awaits. */
  class ScriptBrowserResponseLifecycle {
    var accepting: bool
    var requests: map<nat, Request>
    var tasks: set<nat>
    var writers: seq<Writer>
    var writeQueue: Option<nat>
    var closing: Close
    var wire: seq<Frame>

    function View(): State
      reads this
    {
      State(accepting, requests, tasks, writers, writeQueue, closing, wire)
    }

    constructor ()
      ensures View() == Fresh && Consistent(View())
    {
      accepting, requests, tasks, writers, writeQueue, closing, wire := true, map[], {}, [], None, Open, [];
    }

    method OnDispatch(id: nat)
      requires id !in requests
      modifies this
      ensures View() == Apply(old(View()), Dispatch(id))
    {
      if !accepting {
        return;
      }
      requests := requests[id := Pending];
      tasks := tasks + {id};
    }

    method OnResolved(id: nat, frame: Frame)
      requires AwaitsResponse(View(), id)
      modifies this
      ensures View() == Apply(old(View()), Resolve(id, frame))
    {
      EnqueueWrite(id, frame);
    }

    method OnRejected(id: nat, failureFrame: Frame)
      requires AwaitsResponse(View(), id)
      modifies this
      ensures View() == Apply(old(View()), Reject(id, failureFrame))
    {
      if !accepting {
        requests := requests[id := Dropped];
        return;
      }
      EnqueueWrite(id, failureFrame);
    }

    method OnSettled(id: nat)
      requires Settles(View(), id)
      modifies this
      ensures View() == Apply(old(View()), Settle(id))
    {
      tasks := tasks - {id};
    }

    method EnqueueWrite(id: nat, frame: Frame)
      modifies this
      ensures View() == Enqueue(old(View()), id, frame)
    {
      var next := |writers|;
      writers := writers + [Writer(frame, id, writeQueue, 0, false)];
      writeQueue := Some(next);
      requests := requests[id := Writing(next)];
    }

    method WriteOneChunk(i: nat)
      requires Active(View(), i) && writers[i].offset < |writers[i].frame| && !closing.Ended?
      modifies this`wire, this`writers
      ensures View() == Turn(old(View()), i) == Apply(old(View()), WriteChunk(i))
    {
      var w := writers[i];
      var end := Min(w.offset + MAX_WRITE_CHUNK_BYTES, |w.frame|);
      wire := wire + [w.frame[w.offset..end]];
      writers := writers[i := w.(offset := end)];
    }

    method WriteLoop(i: nat)
      requires Active(View(), i) && !closing.Ended?
      modifies this`wire, this`writers
      ensures View() == Loop(old(View()), i)
    {
      while writers[i].offset < |writers[i].frame|
        invariant Active(View(), i) && Loop(View(), i) == Loop(old(View()), i)
        decreases |writers[i].frame| - writers[i].offset
      {
        WriteOneChunk(i);
      }
      writers := writers[i := writers[i].(done := true)];
    }

    /** The chunk loop, from its first turn to its last, with no other handler in between. */
    method WriteChunked(i: nat)
      requires Consistent(View()) && Active(View(), i) && !closing.Ended?
      modifies this`wire, this`writers
      ensures View() == Loop(old(View()), i) && Consistent(View())
      ensures writers == old(writers)[i := old(writers)[i].(offset := |old(writers)[i].frame|, done := true)]
      ensures Flatten(wire) == Flatten(old(wire)) + old(writers)[i].frame[old(writers)[i].offset..]
      ensures |wire| == |old(wire)| + FewestChunks(|old(writers)[i].frame| - old(writers)[i].offset)
    {
      LoopDoesItsWork(View(), i);
      WriteLoop(i);
    }

    method BeginClose()
      requires closing.Open?
      modifies this
      ensures View() == Apply(old(View()), Event.BeginClose)
    {
      accepting := false;
      closing := ClosingBroker;
    }

    method AwaitTasks()
      requires closing.ClosingBroker?
      modifies this`closing
      ensures View() == Apply(old(View()), BrokerClosed)
    {
      closing := SettlingTasks(tasks);
    }

    method AwaitTail()
      requires closing.SettlingTasks? && closing.waiting !! tasks
      modifies this`closing
      ensures View() == Apply(old(View()), TasksSettled)
    {
      closing := Draining(writeQueue);
    }

    /** The end of `close`, once the captured tail has settled. */
    method End()
      requires Consistent(View()) && closing.Draining? && Finished(View(), closing.last)
      modifies this`closing
      ensures View() == Apply(old(View()), TailDone) && Flatten(wire) == Flatten(Frames(writers))
    {
      NoTasksMeansAllDone(View());
      AllDoneIsAllSent(writers);
      closing := Ended;
    }
  }
}
