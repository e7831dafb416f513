/** The live tail of ingested events: a reader fills a bounded queue and counts what does
    not fit; a writer sends the queue to the client, reporting drops before events. */
module EventTail {

  import opened Wrappers

  const BUFFER: nat := 256

  datatype Event = Event(seqno: nat)

  // ------------------------------------------------ the two loops

  datatype Frame = DroppedFrame(count: nat) | EventFrame(event: Event)

  /** Where the writer is. A mark is the number of drops counted when the counter was read. */
  datatype Writer =
    | Waiting
    | Took(next: Event)
    | Beating
    | Flushing(event: Option<Event>, count: nat, mark: nat)
    | Ready(event: Option<Event>, mark: nat)
    | Gone(event: Option<Event>, count: nat)

  /** received, counted: all matching events, and all drops, so far. */
  datatype State = State(hand: Option<Event>, queue: seq<Event>, dropped: nat, writer: Writer,
                         frames: seq<Frame>, received: seq<Event>, counted: nat)

  datatype Action =
    | Receive(event: Event)
    | Forward
    | TakeNext
    | Heartbeat
    | ReadCounter
    | Report(ok: bool)
    | SendEvent(ok: bool)
    | Ping(ok: bool)

  predicate Enabled(s: State, a: Action) {
    match a
    case Receive(_) => s.hand.None?
    case Forward => s.hand.Some?
    case TakeNext => s.writer.Waiting? && s.queue != []
    case Heartbeat => s.writer.Waiting?
    case ReadCounter => s.writer.Took? || s.writer.Beating?
    case Report(_) => s.writer.Flushing?
    case SendEvent(_) => s.writer.Ready? && s.writer.event.Some?
    case Ping(_) => s.writer.Ready? && s.writer.event.None?
  }

  function Apply(matches: Event -> bool, s: State, a: Action): State
    requires Enabled(s, a)
  {
    match a
    case Receive(e) => if matches(e) then s.(hand := Some(e), received := s.received + [e]) else s
    case Forward =>
      if |s.queue| < BUFFER then s.(hand := None, queue := s.queue + [s.hand.value])
      else s.(hand := None, dropped := s.dropped + 1, counted := s.counted + 1)
    case TakeNext => s.(writer := Took(s.queue[0]), queue := s.queue[1..])
    case Heartbeat => s.(writer := Beating)
    case ReadCounter =>
      s.(writer := Flushing(if s.writer.Took? then Some(s.writer.next) else None, s.dropped, s.counted), dropped := 0)
    case Report(ok) =>
      if s.writer.count == 0 then s.(writer := Ready(s.writer.event, s.writer.mark))
      else if ok then s.(writer := Ready(s.writer.event, s.writer.mark), frames := s.frames + [DroppedFrame(s.writer.count)])
      else s.(writer := Gone(s.writer.event, s.writer.count))
    case SendEvent(ok) =>
      if ok then s.(writer := Waiting, frames := s.frames + [EventFrame(s.writer.event.value)])
      else s.(writer := Gone(s.writer.event, 0))
    case Ping(ok) => s.(writer := if ok then Waiting else Gone(None, 0))
  }

  predicate Runs(matches: Event -> bool, s: State, acts: seq<Action>)
    decreases |acts|
  {
    acts == [] || (Enabled(s, acts[0]) && Runs(matches, Apply(matches, s, acts[0]), acts[1..]))
  }

  function Exec(matches: Event -> bool, s: State, acts: seq<Action>): State
    requires Runs(matches, s, acts)
    decreases |acts|
  {
    if acts == [] then s else Exec(matches, Apply(matches, s, acts[0]), acts[1..])
  }

  /** A stream just opened. */
  predicate Opened(s: State) {
    s.hand == None && s.queue == [] && s.dropped == 0 && s.writer == Waiting && s.frames == [] && s.received == [] && s.counted == 0
  }

  // ------------------------------------------------ what the client got

  function EventOf(f: Frame): seq<Event> {
    if f.EventFrame? then [f.event] else []
  }

  function CountOf(f: Frame): nat {
    if f.DroppedFrame? then f.count else 0
  }

  function Sent(frames: seq<Frame>): seq<Event> {
    if frames == [] then [] else Sent(frames[..|frames| - 1]) + EventOf(frames[|frames| - 1])
  }

  function Reported(frames: seq<Frame>): nat {
    if frames == [] then 0 else Reported(frames[..|frames| - 1]) + CountOf(frames[|frames| - 1])
  }

  function Held(o: Option<Event>): seq<Event> {
    if o.Some? then [o.value] else []
  }

  /** The event the writer has taken and not sent. */
  function InHand(w: Writer): seq<Event> {
    match w
    case Took(e) => [e]
    case Flushing(e, _, _) => Held(e)
    case Ready(e, _) => Held(e)
    case Gone(e, _) => Held(e)
    case _ => []
  }

  /** Drops read off the counter and not reported. */
  function Unreported(w: Writer): nat {
    match w
    case Flushing(_, n, _) => n
    case Gone(_, n) => n
    case _ => 0
  }

  /** The events on their way, oldest first. */
  function Pipe(s: State): seq<Event> {
    Sent(s.frames) + InHand(s.writer) + s.queue + Held(s.hand)
  }

  /** a can be obtained from b by leaving elements out. */
  predicate Subsequence(a: seq<Event>, b: seq<Event>)
    decreases |b|
  {
    if a == [] then true
    else if b == [] then false
    else (a[|a| - 1] == b[|b| - 1] && Subsequence(a[..|a| - 1], b[..|b| - 1])) || Subsequence(a, b[..|b| - 1])
  }

  lemma SubsequenceExtends(a: seq<Event>, b: seq<Event>, e: Event)
    requires Subsequence(a, b)
    ensures Subsequence(a + [e], b + [e])
  {
    assert (a + [e])[..|a|] == a && (b + [e])[..|b|] == b;
  }

  lemma {:induction false} SubsequenceDrops(a: seq<Event>, b: seq<Event>)
    requires a != [] && Subsequence(a, b)
    ensures Subsequence(a[..|a| - 1], b)
    decreases |b|
  {
    var init := b[..|b| - 1];
    if Subsequence(a, init) {
      SubsequenceDrops(a, init);
    }
    assert Subsequence(a[..|a| - 1], init);
  }

  lemma {:induction false} SubsequencePrefix(a: seq<Event>, rest: seq<Event>, b: seq<Event>)
    requires Subsequence(a + rest, b)
    ensures Subsequence(a, b)
    decreases |rest|
  {
    if rest == [] {
      assert a + rest == a;
    } else {
      SubsequenceDrops(a + rest, b);
      assert (a + rest)[..|a + rest| - 1] == a + rest[..|rest| - 1];
      SubsequencePrefix(a, rest[..|rest| - 1], b);
    }
  }

  // ------------------------------------------------ the invariant

  /** Every drop counted is reported, read off, or still on the counter; drops up to a mark
      are reported by the time the writer is ready to send what follows. */
  predicate Counts(s: State) {
    && s.counted == Reported(s.frames) + Unreported(s.writer) + s.dropped
    && (s.writer.Flushing? ==> s.writer.mark == Reported(s.frames) + s.writer.count)
    && (s.writer.Ready? ==> s.writer.mark == Reported(s.frames))
    && |s.queue| <= BUFFER
  }

  predicate Inv(s: State) {
    Counts(s) && |s.received| == |Pipe(s)| + s.counted && Subsequence(Pipe(s), s.received)
  }

  lemma FrameAdded(frames: seq<Frame>, f: Frame)
    ensures Sent(frames + [f]) == Sent(frames) + EventOf(f)
    ensures Reported(frames + [f]) == Reported(frames) + CountOf(f)
  {
    assert (frames + [f])[..|frames|] == frames;
  }

  lemma StepCounts(matches: Event -> bool, s: State, a: Action)
    requires Counts(s) && Enabled(s, a)
    ensures Counts(Apply(matches, s, a))
  {
    if a.Report? {
      FrameAdded(s.frames, DroppedFrame(s.writer.count));
    }
    if a.SendEvent? {
      FrameAdded(s.frames, EventFrame(s.writer.event.value));
    }
  }

  /** Only receiving lengthens the pipe, and only a drop shortens it, by its newest event. */
  lemma StepPipe(matches: Event -> bool, s: State, a: Action)
    requires Enabled(s, a)
    ensures var s' := Apply(matches, s, a);
            Pipe(s') == if a.Receive? && matches(a.event) then Pipe(s) + [a.event]
                        else if a.Forward? && |s.queue| >= BUFFER then Pipe(s)[..|Pipe(s)| - 1]
                        else Pipe(s)
  {
    var s' := Apply(matches, s, a);
    if a.Receive? || a.Forward? {
      var front := Sent(s.frames) + InHand(s.writer);
      ReaderPipe(front, s, s', a, matches);
    } else if a.TakeNext? {
      TakePipe(Sent(s.frames), s.queue, Held(s.hand));
    } else {
      WriterPipe(matches, s, a);
    }
  }

  lemma ReaderPipe(front: seq<Event>, s: State, s': State, a: Action, matches: Event -> bool)
    requires Enabled(s, a) && (a.Receive? || a.Forward?) && s' == Apply(matches, s, a)
    ensures front + s'.queue + Held(s'.hand) ==
            var pipe := front + s.queue + Held(s.hand);
            if a.Receive? && matches(a.event) then pipe + [a.event]
            else if a.Forward? && |s.queue| >= BUFFER then pipe[..|pipe| - 1] else pipe
  {
  }

  lemma TakePipe(sent: seq<Event>, queue: seq<Event>, hand: seq<Event>)
    requires queue != []
    ensures sent + [queue[0]] + queue[1..] + hand == sent + [] + queue + hand
  {
    assert [queue[0]] + queue[1..] == queue;
    assert sent + [queue[0]] + queue[1..] == sent + queue;
  }

  /** What a writer step delivers. */
  function Delivers(s: State, a: Action): seq<Event>
    requires Enabled(s, a)
  {
    if a.SendEvent? && a.ok then [s.writer.event.value] else []
  }

  lemma FramesDeliver(matches: Event -> bool, s: State, a: Action)
    requires Enabled(s, a)
    ensures Sent(Apply(matches, s, a).frames) == Sent(s.frames) + Delivers(s, a)
  {
    if a.SendEvent? && a.ok {
      FrameAdded(s.frames, EventFrame(s.writer.event.value));
    } else if a.Report? && a.ok && s.writer.count > 0 {
      FrameAdded(s.frames, DroppedFrame(s.writer.count));
    } else {
      assert Apply(matches, s, a).frames == s.frames;
    }
  }

  lemma HandDelivers(matches: Event -> bool, s: State, a: Action)
    requires Enabled(s, a) && !a.TakeNext?
    ensures InHand(s.writer) == Delivers(s, a) + InHand(Apply(matches, s, a).writer)
  {
  }

  /** The writer only moves an event from its hand to the client. */
  lemma WriterPipe(matches: Event -> bool, s: State, a: Action)
    requires Enabled(s, a) && !a.Receive? && !a.Forward? && !a.TakeNext?
    ensures var s' := Apply(matches, s, a);
            Sent(s'.frames) + InHand(s'.writer) == Sent(s.frames) + InHand(s.writer) && s'.queue == s.queue && s'.hand == s.hand
  {
    FramesDeliver(matches, s, a);
    HandDelivers(matches, s, a);
    Associate(Sent(s.frames), Delivers(s, a), InHand(Apply(matches, s, a).writer));
  }

  lemma Associate(x: seq<Event>, y: seq<Event>, z: seq<Event>)
    ensures x + y + z == x + (y + z)
  {
  }

  lemma StepKeepsInv(matches: Event -> bool, s: State, a: Action)
    requires Inv(s) && Enabled(s, a)
    ensures Inv(Apply(matches, s, a))
  {
    StepCounts(matches, s, a);
    StepPipe(matches, s, a);
    if a.Receive? {
      SubsequenceExtends(Pipe(s), s.received, a.event);
    }
    if a.Forward? {
      SubsequenceDrops(Pipe(s), s.received);
    }
  }

  lemma {:induction false} RunKeepsInv(matches: Event -> bool, s: State, acts: seq<Action>)
    requires Inv(s) && Runs(matches, s, acts)
    ensures Inv(Exec(matches, s, acts))
    decreases |acts|
  {
    if acts != [] {
      StepKeepsInv(matches, s, acts[0]);
      RunKeepsInv(matches, Apply(matches, s, acts[0]), acts[1..]);
    }
  }

  lemma OpenedInv(s: State)
    requires Opened(s)
    ensures Inv(s)
  {
    assert |Pipe(s)| == 0;
  }

  /** In every interleaving, every matching event received is sent, queued, in hand, reported
      dropped, or dropped and not yet reported. */
  lemma NothingUnaccounted(matches: Event -> bool, s0: State, acts: seq<Action>)
    requires Opened(s0) && Runs(matches, s0, acts)
    ensures var s := Exec(matches, s0, acts);
            |s.received| == |Sent(s.frames)| + |s.queue| + |InHand(s.writer)| + |Held(s.hand)|
                            + Reported(s.frames) + Unreported(s.writer) + s.dropped
  {
    OpenedInv(s0);
    RunKeepsInv(matches, s0, acts);
  }

  /** An event is dropped exactly when the queue already holds 256. */
  lemma DropsOnlyWhenFull(matches: Event -> bool, s: State, a: Action)
    requires Enabled(s, a)
    ensures Apply(matches, s, a).counted == s.counted + if a.Forward? && |s.queue| >= 256 then 1 else 0
  {
  }

  /** A stream that has received no more than 256 events has dropped none. */
  lemma {:induction false} FewEventsNoDrops(matches: Event -> bool, s: State, acts: seq<Action>)
    requires Inv(s) && s.counted == 0 && Runs(matches, s, acts) && |Exec(matches, s, acts).received| <= 256
    ensures Exec(matches, s, acts).counted == 0
    decreases |acts|
  {
    if acts != [] {
      var s' := Apply(matches, s, acts[0]);
      StepKeepsInv(matches, s, acts[0]);
      ReceivedGrows(matches, s, acts);
      FewEventsNoDrops(matches, s', acts[1..]);
    }
  }

  lemma {:induction false} ReceivedGrows(matches: Event -> bool, s: State, acts: seq<Action>)
    requires Runs(matches, s, acts)
    ensures |s.received| <= |Exec(matches, s, acts).received|
    decreases |acts|
  {
    if acts != [] {
      ReceivedGrows(matches, Apply(matches, s, acts[0]), acts[1..]);
    }
  }

  /** The matching events among those taken off the bus, in order. */
  function Arrivals(matches: Event -> bool, acts: seq<Action>): seq<Event> {
    if acts == [] then []
    else (if acts[0].Receive? && matches(acts[0].event) then [acts[0].event] else []) + Arrivals(matches, acts[1..])
  }

  /** Exactly the matching events are received, in order. */
  lemma {:induction false} ReceivedExactly(matches: Event -> bool, s: State, acts: seq<Action>)
    requires Runs(matches, s, acts)
    ensures Exec(matches, s, acts).received == s.received + Arrivals(matches, acts)
    decreases |acts|
  {
    if acts != [] {
      ReceivedExactly(matches, Apply(matches, s, acts[0]), acts[1..]);
    }
  }

  /** With at most 256 matching events, a stream that has handed on all it received has sent
      the client exactly those, in order. */
  lemma NothingDroppedNothingLost(matches: Event -> bool, s0: State, acts: seq<Action>)
    requires Opened(s0) && Runs(matches, s0, acts) && |Arrivals(matches, acts)| <= 256
    requires var s := Exec(matches, s0, acts); s.queue == [] && s.hand == None && InHand(s.writer) == []
    ensures Sent(Exec(matches, s0, acts).frames) == Arrivals(matches, acts)
  {
    var s := Exec(matches, s0, acts);
    OpenedInv(s0);
    RunKeepsInv(matches, s0, acts);
    ReceivedExactly(matches, s0, acts);
    FewEventsNoDrops(matches, s0, acts);
    assert s.received == Arrivals(matches, acts);
    assert Pipe(s) == Sent(s.frames);
    WholeSubsequence(Sent(s.frames), s.received);
  }

  lemma {:induction false} WholeSubsequence(a: seq<Event>, b: seq<Event>)
    requires Subsequence(a, b) && |a| >= |b|
    ensures a == b
    decreases |b|
  {
    if b != [] {
      var init := b[..|b| - 1];
      if a[|a| - 1] == b[|b| - 1] && Subsequence(a[..|a| - 1], init) {
        WholeSubsequence(a[..|a| - 1], init);
        assert a == a[..|a| - 1] + [a[|a| - 1]] && b == init + [b[|b| - 1]];
      } else {
        WholeSubsequence(a, init);
      }
    }
  }

  lemma Regroup(a: seq<Event>, b: seq<Event>, c: seq<Event>, d: seq<Event>)
    ensures a + b + c + d == a + (b + c + d)
  {
  }

  lemma SentIsSubsequence(s: State)
    requires Inv(s)
    ensures Subsequence(Sent(s.frames), s.received)
  {
    var sent, hand, queue, held := Sent(s.frames), InHand(s.writer), s.queue, Held(s.hand);
    Regroup(sent, hand, queue, held);
    SubsequencePrefix(sent, hand + queue + held, s.received);
  }

  /** The client sees events in the order they were received, with gaps but never out of order. */
  lemma SentInOrder(matches: Event -> bool, s0: State, acts: seq<Action>)
    requires Opened(s0) && Runs(matches, s0, acts)
    ensures var s := Exec(matches, s0, acts); Subsequence(Sent(s.frames), s.received)
  {
    OpenedInv(s0);
    RunKeepsInv(matches, s0, acts);
    SentIsSubsequence(Exec(matches, s0, acts));
  }

  /** What happens between reading the counter for an event and sending that event: the
      reader may go on, and the writer reports once. */
  predicate Between(acts: seq<Action>) {
    forall k :: 0 <= k < |acts| ==> acts[k].Receive? || acts[k].Forward? || acts[k].Report?
  }

  lemma {:induction false} MarkStays(matches: Event -> bool, s: State, acts: seq<Action>)
    requires Runs(matches, s, acts) && Between(acts) && (s.writer.Flushing? || s.writer.Ready?)
    ensures var w := Exec(matches, s, acts).writer;
            (w.Flushing? || w.Ready?) ==> w.mark == s.writer.mark && w.event == s.writer.event
    ensures !Exec(matches, s, acts).writer.Waiting?
    decreases |acts|
  {
    if acts != [] {
      var s' := Apply(matches, s, acts[0]);
      if s'.writer.Gone? {
        GoneStays(matches, s', acts[1..]);
      } else {
        MarkStays(matches, s', acts[1..]);
      }
    }
  }

  lemma {:induction false} GoneStays(matches: Event -> bool, s: State, acts: seq<Action>)
    requires Runs(matches, s, acts) && s.writer.Gone?
    ensures Exec(matches, s, acts).writer == s.writer
    decreases |acts|
  {
    if acts != [] {
      GoneStays(matches, Apply(matches, s, acts[0]), acts[1..]);
    }
  }

  /** Drops counted when the writer flushes are all reported before the event it then sends. */
  lemma DropsReportedFirst(matches: Event -> bool, s0: State, before: seq<Action>, s: State, between: seq<Action>)
    requires Opened(s0) && Runs(matches, s0, before) && Exec(matches, s0, before) == s
    requires s.writer.Took? && Between(between) && Runs(matches, Apply(matches, s, ReadCounter), between)
    requires Enabled(Exec(matches, Apply(matches, s, ReadCounter), between), SendEvent(true))
    ensures var t := Exec(matches, Apply(matches, s, ReadCounter), between);
            Reported(t.frames) == s.counted && t.writer.event == Some(s.writer.next)
  {
    OpenedInv(s0);
    RunKeepsInv(matches, s0, before);
    FlushedFirst(matches, s, between);
  }

  lemma FlushedFirst(matches: Event -> bool, s: State, between: seq<Action>)
    requires Inv(s) && s.writer.Took? && Between(between) && Runs(matches, Apply(matches, s, ReadCounter), between)
    requires Enabled(Exec(matches, Apply(matches, s, ReadCounter), between), SendEvent(true))
    ensures var t := Exec(matches, Apply(matches, s, ReadCounter), between);
            Reported(t.frames) == s.counted && t.writer.event == Some(s.writer.next)
  {
    var read := Apply(matches, s, ReadCounter);
    StepKeepsInv(matches, s, ReadCounter);
    RunKeepsInv(matches, read, between);
    MarkStays(matches, read, between);
  }
}
