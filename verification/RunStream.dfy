/** A batch run finalising its row and announcing its end, against a live stream of that run
    being opened: subscribe, read the snapshot, forward events until a terminal one. */
module RunStream {

  datatype Kind = PhaseStarted | PhaseCompleted | LogLine | Completed | Cancelled

  predicate IsTerminal(k: Kind) {
    k == Completed || k == Cancelled
  }

  // ------------------------------------------------ the writer loop

  datatype Ending = ClientGone | TerminalSent | BusClosed

  /** Forward events in order; a per-run stream ends after a terminal one. */
  method StreamRun(events: seq<Kind>, closeOnTerminal: bool, sendFails: nat -> bool) returns (sent: seq<Kind>, why: Ending)
    ensures sent <= events
    ensures closeOnTerminal ==> forall k :: 0 <= k < |sent| - 1 ==> sent[k] != Completed && sent[k] != Cancelled
    ensures why == TerminalSent <==> closeOnTerminal && sent != [] && (sent[|sent| - 1] == Completed || sent[|sent| - 1] == Cancelled)
    ensures why == BusClosed ==> sent == events
    ensures why == ClientGone ==> |sent| < |events| && sendFails(|sent|)
  {
    sent := [];
    for k := 0 to |events|
      invariant sent == events[..k]
      invariant closeOnTerminal ==> forall j :: 0 <= j < k ==> !IsTerminal(events[j])
    {
      if sendFails(k) {
        return sent, ClientGone;
      }
      sent := sent + [events[k]];
      if closeOnTerminal && IsTerminal(events[k]) {
        return sent, TerminalSent;
      }
    }
    return sent, BusClosed;
  }

  // ------------------------------------------------ the two processes

  /** Where the handler is. */
  datatype PC = Begin | Halfway | Streaming | NoContent | Ended

  /** todo: progress events not yet announced. */
  datatype State = State(todo: seq<Kind>, finalised: bool, notified: bool, rowClosed: bool,
                         pc: PC, subscribed: bool, mailbox: seq<Kind>, sent: seq<Kind>)

  /** What the design fixes: the handler's order, the run's order, whether the row's finalise
      write succeeds, and how the run ends. */
  datatype Design = Design(subscribeFirst: bool, finaliseFirst: bool, finaliseWrites: bool, end: Kind)
  {
    predicate Good() {
      subscribeFirst && finaliseFirst && finaliseWrites
    }
  }

  datatype Action = Announce | Finalise | Notify | Subscribe | Snapshot | Send

  function Delivered(s: State, k: Kind): seq<Kind> {
    if s.subscribed then s.mailbox + [k] else s.mailbox
  }

  predicate Enabled(d: Design, s: State, a: Action) {
    match a
    case Announce => s.todo != []
    case Finalise => s.todo == [] && !s.finalised && (d.finaliseFirst || s.notified)
    case Notify => s.todo == [] && !s.notified && (d.finaliseFirst ==> s.finalised)
    case Subscribe => s.pc == if d.subscribeFirst then Begin else Halfway
    case Snapshot => s.pc == if d.subscribeFirst then Halfway else Begin
    case Send => s.pc == Streaming && s.mailbox != []
  }

  function Apply(d: Design, s: State, a: Action): State
    requires Enabled(d, s, a)
  {
    match a
    case Announce => s.(todo := s.todo[1..], mailbox := Delivered(s, s.todo[0]))
    case Finalise => s.(finalised := true, rowClosed := d.finaliseWrites)
    case Notify => s.(notified := true, mailbox := Delivered(s, d.end))
    case Subscribe => s.(subscribed := true, pc := if d.subscribeFirst then Halfway else Streaming)
    case Snapshot => s.(pc := if s.rowClosed then NoContent else if d.subscribeFirst then Streaming else Halfway)
    case Send =>
      s.(mailbox := s.mailbox[1..], sent := s.sent + [s.mailbox[0]], pc := if IsTerminal(s.mailbox[0]) then Ended else Streaming)
  }

  predicate Runs(d: Design, s: State, acts: seq<Action>)
    decreases |acts|
  {
    acts == [] || (Enabled(d, s, acts[0]) && Runs(d, Apply(d, s, acts[0]), acts[1..]))
  }

  function Exec(d: Design, s: State, acts: seq<Action>): State
    requires Runs(d, s, acts)
    decreases |acts|
  {
    if acts == [] then s else Exec(d, Apply(d, s, acts[0]), acts[1..])
  }

  function Initial(progress: seq<Kind>): State {
    State(progress, false, false, false, Begin, false, [], [])
  }

  predicate ProgressOnly(ks: seq<Kind>) {
    forall k :: 0 <= k < |ks| ==> !IsTerminal(ks[k])
  }

  predicate Stuck(d: Design, s: State) {
    forall a :: !Enabled(d, s, a)
  }

  // ------------------------------------------------ every run ends

  function Left(s: State): nat {
    (if s.pc == Begin then 2 else if s.pc == Halfway then 1 else 0)
    + 2 * |s.todo| + (if s.finalised then 0 else 1) + (if s.notified then 0 else 2) + |s.mailbox|
  }

  lemma StepUses(d: Design, s: State, a: Action)
    requires Enabled(d, s, a)
    ensures Left(Apply(d, s, a)) < Left(s)
  {
  }

  lemma {:induction false} RunIsShort(d: Design, s: State, acts: seq<Action>)
    requires Runs(d, s, acts)
    ensures |acts| + Left(Exec(d, s, acts)) <= Left(s)
    decreases |acts|
  {
    if acts != [] {
      StepUses(d, s, acts[0]);
      RunIsShort(d, Apply(d, s, acts[0]), acts[1..]);
    }
  }

  // ------------------------------------------------ and closes the stream

  /** An open stream has its end ahead of it: announced in the mailbox, or still to come. */
  predicate Inv(d: Design, s: State) {
    && ProgressOnly(s.todo) && ProgressOnly(s.sent[..if s.pc == Ended && s.sent != [] then |s.sent| - 1 else |s.sent|])
    && (s.finalised ==> s.rowClosed && s.todo == []) && (s.notified ==> s.finalised)
    && (s.pc == Begin ==> !s.subscribed) && (s.pc == Halfway || s.pc == Streaming ==> s.subscribed)
    && (s.pc == Ended ==> s.sent != [] && IsTerminal(s.sent[|s.sent| - 1]))
    && (!s.subscribed ==> s.mailbox == [])
    && (if s.pc == Streaming && s.notified then s.mailbox != [] && IsTerminal(s.mailbox[|s.mailbox| - 1]) && ProgressOnly(s.mailbox[..|s.mailbox| - 1])
        else !s.notified ==> ProgressOnly(s.mailbox))
    && (s.pc == Halfway && s.notified ==> s.rowClosed)
  }

  lemma StepKeepsInv(d: Design, s: State, a: Action)
    requires d.Good() && IsTerminal(d.end) && Inv(d, s) && Enabled(d, s, a)
    ensures Inv(d, Apply(d, s, a))
  {
    var s' := Apply(d, s, a);
    if a == Send {
      assert s'.sent[..|s.sent|] == s.sent;
      assert s.notified ==> |s.mailbox| == 1 || s'.mailbox[..|s'.mailbox| - 1] == s.mailbox[..|s.mailbox| - 1][1..];
    }
    if a == Notify {
      assert s.subscribed ==> s'.mailbox[..|s'.mailbox| - 1] == s.mailbox;
    }
  }

  lemma {:induction false} RunKeepsInv(d: Design, s: State, acts: seq<Action>)
    requires d.Good() && IsTerminal(d.end) && Inv(d, s) && Runs(d, s, acts)
    ensures Inv(d, Exec(d, s, acts))
    decreases |acts|
  {
    if acts != [] {
      StepKeepsInv(d, s, acts[0]);
      RunKeepsInv(d, Apply(d, s, acts[0]), acts[1..]);
    }
  }

  /** The handler is done: it reported a finished run, or forwarded the terminal event last. */
  predicate Closed(s: State) {
    s.pc == NoContent
    || (s.pc == Ended && s.sent != [] && (s.sent[|s.sent| - 1] == Completed || s.sent[|s.sent| - 1] == Cancelled) && Progress(s.sent[..|s.sent| - 1]))
  }

  /** Only phases and log lines. */
  predicate Progress(ks: seq<Kind>) {
    forall k :: 0 <= k < |ks| ==> ks[k] == PhaseStarted || ks[k] == PhaseCompleted || ks[k] == LogLine
  }

  /** Subscribing first and finalising before notifying, every interleaving is finite and
      one that cannot go on has closed the stream. */
  lemma EveryStreamCloses(d: Design, progress: seq<Kind>, acts: seq<Action>)
    requires d.Good() && (d.end == Completed || d.end == Cancelled) && Progress(progress)
    requires Runs(d, Initial(progress), acts)
    ensures |acts| <= 2 * |progress| + 5
    ensures Stuck(d, Exec(d, Initial(progress), acts)) ==> Closed(Exec(d, Initial(progress), acts))
  {
    RunIsShort(d, Initial(progress), acts);
    RunKeepsInv(d, Initial(progress), acts);
    var s := Exec(d, Initial(progress), acts);
    if Stuck(d, s) {
      assert !Enabled(d, s, Announce) && !Enabled(d, s, Finalise) && !Enabled(d, s, Notify);
      assert !Enabled(d, s, Subscribe) && !Enabled(d, s, Snapshot) && !Enabled(d, s, Send);
    }
  }

  /** The interleaving that loses: the run announces its end before the subscription, and
      its row still reads open at the snapshot. */
  function LosingEnd(d: Design): seq<Action> {
    if !d.subscribeFirst then (if d.finaliseFirst then [Finalise, Notify, Subscribe] else [Notify, Finalise, Subscribe])
    else if d.finaliseFirst then [Finalise, Notify, Subscribe, Snapshot]
    else [Notify, Subscribe, Snapshot, Finalise]
  }

  function LosingRun(d: Design, n: nat): seq<Action> {
    (if d.subscribeFirst then [] else [Snapshot]) + (Announces(n) + LosingEnd(d))
  }

  function Announces(n: nat): seq<Action> {
    if n == 0 then [] else [Announce] + Announces(n - 1)
  }

  lemma {:induction false} AnnounceAll(d: Design, s: State, rest: seq<Action>)
    requires !s.subscribed && Runs(d, s.(todo := []), rest)
    ensures Runs(d, s, Announces(|s.todo|) + rest)
    ensures Exec(d, s, Announces(|s.todo|) + rest) == Exec(d, s.(todo := []), rest)
    decreases |s.todo|
  {
    if s.todo == [] {
      assert s.(todo := []) == s && Announces(0) + rest == rest;
    } else {
      var s' := Apply(d, s, Announce);
      AnnounceAll(d, s', rest);
      assert s'.(todo := []) == s.(todo := []);
      var acts := Announces(|s.todo|) + rest;
      assert acts[0] == Announce && acts[1..] == Announces(|s'.todo|) + rest;
    }
  }

  lemma Then(d: Design, s: State, acts: seq<Action>)
    requires acts != [] && Enabled(d, s, acts[0]) && Runs(d, Apply(d, s, acts[0]), acts[1..])
    ensures Runs(d, s, acts) && Exec(d, s, acts) == Exec(d, Apply(d, s, acts[0]), acts[1..])
  {
  }

  lemma {:induction false} LosingEndRuns(d: Design, s: State)
    requires !d.Good() && s.todo == [] && !s.finalised && !s.notified && !s.subscribed && !s.rowClosed && s.mailbox == []
    requires s.pc == if d.subscribeFirst then Begin else Halfway
    ensures Runs(d, s, LosingEnd(d))
    ensures var last := Exec(d, s, LosingEnd(d)); last.pc == Streaming && last.mailbox == [] && last.notified && last.todo == [] && last.finalised
  {
    var acts := LosingEnd(d);
    var s1 := Apply(d, s, acts[0]);
    var s2 := Apply(d, s1, acts[1]);
    var s3 := Apply(d, s2, acts[2]);
    assert acts[1..][1..] == acts[2..] && acts[2..][1..] == acts[3..];
    if d.subscribeFirst {
      assert acts[3..] == [acts[3]] && acts[3..][1..] == [];
      Then(d, s3, acts[3..]);
    }
    Then(d, s2, acts[2..]);
    Then(d, s1, acts[1..]);
    Then(d, s, acts);
  }

  lemma LosingTrace(d: Design, progress: seq<Kind>)
    requires !d.Good()
    ensures Runs(d, Initial(progress), LosingRun(d, |progress|))
    ensures var s := Exec(d, Initial(progress), LosingRun(d, |progress|)); Stuck(d, s) && s.pc == Streaming
  {
    var s, acts := Initial(progress), LosingRun(d, |progress|);
    if d.subscribeFirst {
      LosingEndRuns(d, s.(todo := []));
      AnnounceAll(d, s, LosingEnd(d));
      assert acts == Announces(|progress|) + LosingEnd(d);
    } else {
      var s1 := Apply(d, s, Snapshot);
      LosingEndRuns(d, s1.(todo := []));
      AnnounceAll(d, s1, LosingEnd(d));
      assert acts[0] == Snapshot && acts[1..] == Announces(|progress|) + LosingEnd(d);
      Then(d, s, acts);
    }
  }

  /** Exactly this design closes every stream: subscribe before the snapshot, and make the
      row's end durable before announcing it. */
  lemma StreamsCloseExactly(d: Design, progress: seq<Kind>)
    requires (d.end == Completed || d.end == Cancelled) && Progress(progress)
    ensures (forall acts :: Runs(d, Initial(progress), acts) && Stuck(d, Exec(d, Initial(progress), acts)) ==> Closed(Exec(d, Initial(progress), acts)))
            <==> d.subscribeFirst && d.finaliseFirst && d.finaliseWrites
  {
    if d.Good() {
      forall acts | Runs(d, Initial(progress), acts) && Stuck(d, Exec(d, Initial(progress), acts))
        ensures Closed(Exec(d, Initial(progress), acts))
      {
        EveryStreamCloses(d, progress, acts);
      }
    } else {
      LosingTrace(d, progress);
    }
  }
}
