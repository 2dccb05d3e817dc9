// What results of the wire and items read off it lead to on every fair endless
// run (src/driver.rs, run_reader, run_writer and close_writer).
module Responses {
  import opened Errors
  import opened Cells
  import opened Lanes
  import opened Machine
  import opened Effects
  import opened Assertions
  import opened Runs
  import opened Fairness
  import opened Draining
  import opened Liveness
  import opened Writes
  import opened Endings
  import Handshake
  import Counting
  import Timers
  import Outflow
  import SendOrder
  import Inflow
  import Settling

  // ----- an error of the wire closes the connection -----

  ghost predicate RefusedSend(s: State, held: Option<Command>) {
    held.Some? ==> held.value.id in s.outq.replies && s.outq.replies[held.value.id].Refused?
  }

  ghost function FailRank(s: State, held: Option<Command>): nat {
    if IsClosed(s.core) && RefusedSend(s, held) then 0
    else match s.writer
         case WFail(_, h) => if h == held then 3 else FAR
         case WFailSignal(_, h) => if h == held then 2 else FAR
         case WReplyErr(c, _) => if Some(c) == held then 1 else FAR
         case _ => FAR
  }

  lemma WriterFailsOn(s: State, ev: WriterEvent, s': State, held: Option<Command>)
    requires Sound(s) && Next(s, WriterActs(ev), s') && 0 < FailRank(s, held) < FAR
    ensures FailRank(s', held) < FailRank(s, held)
  {
    hide WriterStep, WriterEffect, CoreOk, ReaderOk, DogsOk, CallersOk, RepliesOk, InboundOk, OutboundOk;
    hide Counting.Counted, Counting.OneWatchdog, Timers.Timed, Outflow.Conserved, SendOrder.Ordered;
    hide SendOrder.WireTimed, Inflow.Delivering, Settling.Owed, Settling.Settled;
    WriterSummarized(s, ev, s');
    FailingCloses(s.core, s.writer, s.writerSeen);
  }

  lemma FailingCloses(c: Core, w: Writer, seen: nat)
    requires WriterOk(c, w, seen) && (w.WFail? || w.WFailSignal? || w.WReplyErr?)
    ensures IsClosed(WriterEffect(c, w))
  {
  }

  lemma FailingDescends(s: State, a: Option<Action>, s': State, held: Option<Command>)
    requires Sound(s) && StepOrStay(s, a, s')
    ensures Falls(FAR, FailRank(s, held), Ready(s, TheWriter), FailRank(s', held), Performs(a, TheWriter))
  {
    hide Sound, Next;
    if 0 < FailRank(s, held) < FAR {
      OnlyOwnSteps(s, a, s');
      if Performs(a, TheWriter) {
        WriterFailsOn(s, a.value.we, s', held);
      }
    }
  }

  lemma FailedIsRefused(s: State, held: Option<Command>)
    requires Sound(s) && FailRank(s, held) == 0
    ensures IsClosed(s.core)
    ensures held.Some? ==> held.value.id in s.outq.replies
                           && s.outq.replies[held.value.id] == Refused(s.core.state.value.outcome)
  {
    hide Sound, RepliesOk, SendOrder.FlowOk;
    SoundOrders(s);
    if held.Some? {
      assert ReplyOk(s.core, s.outq.replies[held.value.id]) by { RepliesAreOk(s, held.value.id); }
    }
  }

  lemma RepliesAreOk(s: State, id: nat)
    requires RepliesOk(s.core, s.outq.replies) && id in s.outq.replies
    ensures ReplyOk(s.core, s.outq.replies[id])
  {
  }

  // An error in a write, flush or close frame closes the connection, and the
  // send that was being written is refused with the final value.
  lemma WireErrorIsAnswered(h: History, w: Schedule, n: nat) returns (m: nat)
    requires Fair(h, w) && w(n).Some? && w(n).value.WriterActs? && w(n).value.we.WIoError?
    ensures n < m && IsClosed(h(m).core)
    ensures var held := OnWireSend(h(n).writer);
            held.Some? ==> held.value.id in h(m).outq.replies
                           && h(m).outq.replies[held.value.id] == Refused(h(m).core.state.value.outcome)
  {
    hide Init, Next, Sound, Ready, Performs, Weakly, AbortsHonoured, Follows, FailRank;
    var held := OnWireSend(h(n).writer);
    EndlessStep(h, w, n);
    StepFails(h(n), w(n).value.we, h(n + 1));
    FailingIsNear(h(n + 1), held);
    var rank := (s: State) => FailRank(s, held);
    forall j: nat | n + 1 <= j ensures Lowers(h, w, TheWriter, rank, FAR, j) {
      EndlessStep(h, w, j);
      FailingDescends(h(j), w(j), h(j + 1), held);
    }
    m := Progress(h, w, TheWriter, rank, FAR, n + 1);
    EndlessIsSound(h, w, m);
    FailedIsRefused(h(m), held);
  }

  lemma FailingIsNear(s: State, held: Option<Command>)
    requires s.writer.WFail? && s.writer.held == held
    ensures FailRank(s, held) < FAR
  {
  }

  // ----- a send whose write succeeds returns -----

  // The command's reply is Ok, or the writer is about to give it.
  ghost predicate Approved(s: State, i: nat) {
    if i in s.outq.replies then s.outq.replies[i] == Delivered
    else s.writer.WReplyOk? && s.writer.c.id == i
  }

  // The call still waits, or has returned Ok, or was cancelled.
  ghost predicate Succeeding(s: State, i: nat) {
    && Approved(s, i) && i < |s.callers|
    && (s.callers[i].SWaiting? || s.callers[i] == SendDone(SentOk) || s.callers[i] == SendDone(SendCancelled))
  }

  lemma WriterApproves(s: State, ev: WriterEvent, s': State, i: nat)
    requires Sound(s) && Next(s, WriterActs(ev), s') && Approved(s, i)
    ensures Approved(s', i) && (s.writer.WReplyOk? && s.writer.c.id == i ==> i in s'.outq.replies)
  {
    hide Sound, SendOrder.FlowOk, WriterStep, WriterEffect;
    SoundOrders(s);
    WriterRepliesOnce(s, ev, s');
    WriterSummarized(s, ev, s');
  }

  lemma WaitingSendAnswers(s: State, i: nat, ev: CallEvent, s': State)
    requires Next(s, CallerActs(i, ev), s') && i < |s.callers| && s.callers[i].SWaiting?
    requires i in s.outq.replies ==> s.outq.replies[i] == Delivered
    ensures i < |s'.callers|
    ensures s'.callers[i] == SendDone(SentOk) || s'.callers[i] == SendDone(SendCancelled)
    ensures s'.outq == s.outq && s'.writer == s.writer
  {
  }

  lemma StepSucceeds(s: State, a: Option<Action>, s': State, i: nat)
    requires Sound(s) && StepOrStay(s, a, s') && Succeeding(s, i)
    ensures Succeeding(s', i)
    ensures i in s.outq.replies ==> i in s'.outq.replies
  {
    hide Next, Sound;
    OnlyOwnSteps(s, a, s');
    if a.Some? {
      RepliesStand(s, a.value, s');
      if Performs(a, TheCaller(i)) {
        DoneDoesNotStep(s, i, a.value.ce, s');
        WaitingSendAnswers(s, i, a.value.ce, s');
      } else if a.value.WriterActs? {
        WriterApproves(s, a.value.we, s', i);
      } else {
        BystandersApprove(s, a.value, s', i);
      }
    }
  }

  lemma DoneDoesNotStep(s: State, i: nat, ev: CallEvent, s': State)
    requires Next(s, CallerActs(i, ev), s')
    ensures i < |s.callers| && !s.callers[i].SendDone?
  {
  }

  lemma BystandersApprove(s: State, a: Action, s': State, i: nat)
    requires Sound(s) && Next(s, a, s') && !a.WriterActs? && Approved(s, i) && s'.writer == s.writer
    requires forall id :: id in s.outq.replies ==> id in s'.outq.replies && s'.outq.replies[id] == s.outq.replies[id]
    ensures Approved(s', i)
  {
    hide Next, Sound, SendOrder.FlowOk;
    if !a.StrandedDrops? {
      SeenStaysSeen(s, a, s');
    } else if i !in s.outq.replies {
      StrandedWritersAreGone(s, a, s');
    }
  }

  lemma StrandedWritersAreGone(s: State, a: Action, s': State)
    requires Next(s, a, s') && a.StrandedDrops?
    ensures !s.writer.WReplyOk?
  {
  }

  lemma {:induction false} StaysSucceeding(h: History, w: Schedule, n: nat, k: nat, i: nat)
    requires Endless(h, w) && n <= k && Succeeding(h(n), i)
    ensures Succeeding(h(k), i) && (i in h(n).outq.replies ==> i in h(k).outq.replies)
    decreases k
  {
    hide Init, Next, Sound, Succeeding;
    if n == k {
    } else {
      StaysSucceeding(h, w, n, k - 1, i);
      EndlessStep(h, w, k - 1);
      StepSucceeds(h(k - 1), w(k - 1), h(k), i);
    }
  }

  function ReplyRank(s: State, i: nat): nat {
    if i in s.outq.replies then 0 else if s.writer.WReplyOk? && s.writer.c.id == i then 1 else FAR
  }

  lemma ReplyDescends(s: State, a: Option<Action>, s': State, i: nat)
    requires Sound(s) && StepOrStay(s, a, s') && Succeeding(s, i)
    ensures Falls(FAR, ReplyRank(s, i), Ready(s, TheWriter), ReplyRank(s', i), Performs(a, TheWriter))
  {
    hide Next, Sound;
    if ReplyRank(s, i) == 1 {
      StepSucceeds(s, a, s', i);
      OnlyOwnSteps(s, a, s');
      if Performs(a, TheWriter) {
        WriterApproves(s, a.value.we, s', i);
      }
    }
  }

  // A send() that waits while its message is written successfully returns Ok,
  // unless it is cancelled.
  lemma WrittenSendReturns(h: History, w: Schedule, n: nat, i: nat) returns (m: nat)
    requires Fair(h, w) && w(n).Some? && WritesAt(h(n), w(n).value, i)
    requires i < |h(n).callers| && h(n).callers[i].SWaiting?
    ensures n < m && i < |h(m).callers|
    ensures h(m).callers[i] == SendDone(SentOk) || h(m).callers[i] == SendDone(SendCancelled)
  {
    hide Init, Next, Sound, Ready, Performs, Weakly, AbortsHonoured, Follows, Succeeding;
    EndlessStep(h, w, n);
    WritingSucceeds(h(n), w(n).value, h(n + 1), i);
    var replying := (s: State) => ReplyRank(s, i);
    forall j: nat | n + 1 <= j ensures Lowers(h, w, TheWriter, replying, FAR, j) {
      EndlessStep(h, w, j);
      StaysSucceeding(h, w, n + 1, j, i);
      ReplyDescends(h(j), w(j), h(j + 1), i);
    }
    var k := Progress(h, w, TheWriter, replying, FAR, n + 1);
    StaysSucceeding(h, w, n + 1, k, i);
    var returning := (s: State) => SendRank(s, i);
    forall j: nat | k <= j ensures Lowers(h, w, TheCaller(i), returning, FAR, j) {
      EndlessStep(h, w, j);
      StaysSucceeding(h, w, k, j, i);
      SendDescends(h(j), i, w(j), h(j + 1));
    }
    SucceedingIsNear(h(k), i);
    m := Progress(h, w, TheCaller(i), returning, FAR, k);
    StaysSucceeding(h, w, k, m, i);
    SucceedingIsNear(h(m), i);
  }

  lemma SucceedingIsNear(s: State, i: nat)
    requires Succeeding(s, i)
    ensures ReplyRank(s, i) < FAR && SendRank(s, i) < FAR && i < |s.callers|
    ensures SendRank(s, i) == 0 ==> s.callers[i] == SendDone(SentOk) || s.callers[i] == SendDone(SendCancelled)
  {
  }

  lemma WritingSucceeds(s: State, a: Action, s': State, i: nat)
    requires Sound(s) && Next(s, a, s') && WritesAt(s, a, i) && i < |s.callers| && s.callers[i].SWaiting?
    ensures Succeeding(s', i) && ReplyRank(s', i) < FAR
  {
    hide Next, Sound, SendOrder.FlowOk;
    OnlyOwnSteps(s, Some(a), s');
    SoundOrders(s);
    WriteIsPending(s);
    NextWriterStep(s, a.we, s');
  }

  lemma WriteIsPending(s: State)
    requires SendOrder.FlowOk(SendOrder.FlowOf(s)) && s.writer.WWrite?
    ensures s.writer.c.id !in s.outq.replies
  {
    assert SendOrder.Pending(s)[0] == s.writer.c.id;
  }

  lemma NextWriterStep(s: State, ev: WriterEvent, s': State)
    requires Next(s, WriterActs(ev), s') && s.writer.WWrite? && ev.WIoOk?
    ensures s'.writer == WReplyOk(s.writer.c) && s'.outq.replies == s.outq.replies
  {
    hide WriterStep, WriterEffect, WriterEdge;
    Writes.StepCounts(s, ev, s');
    WriterSummarized(s, ev, s');
  }

  // ----- a local close puts a close frame on the wire -----

  ghost predicate CloseIsOut(s: State) {
    IsClosed(s.core) || PastLocal(s.core) || SendOrder.ClosesWith(s.log.wire)
  }

  ghost function CloseOutRank(s: State): nat {
    if CloseIsOut(s) then 0
    else if !s.core.signal.value.LocalClose? then FAR
    else CloseOutDistance(s.writer)
  }

  function CloseOutDistance(w: Writer): nat {
    match w
    case WPollQueues => 9
    case WWrite(_) => 8
    case WReplyOk(_) => 7
    case WReleaseOk(_) => 6
    case WFlush => 6
    case WPoll => 5
    case WReadSignal => 4
    case WFail(_, _) => 3
    case _ => FAR
  }

  lemma ClosingWriterGoesOn(c: Core, w: Writer, seen: nat)
    requires WriterOk(c, w, seen) && !IsClosed(c) && c.signal.value.LocalClose? && !InHandshake(w)
    ensures CloseOutDistance(w) < FAR && (WriterReady(c, w, seen) || OnTheWire(w))
  {
  }

  // Each step of the writer brings it nearer to its close frame, or closes the
  // state.
  lemma ClosingEdge(c: Core, w: Writer, seen: nat, w': Writer)
    requires CoreOk(c) && WriterOk(c, w, seen) && WriterEdge(c, w, w') && !IsClosed(c) && c.signal.value.LocalClose?
    requires w.WPoll? && w'.WPollQueues? ==> c.signal.version <= seen
    requires w.WPollQueues? ==> !w'.WShut?
    requires CloseOutDistance(w) < FAR
    ensures IsClosed(WriterEffect(c, w)) || w'.WSendClose? || CloseOutDistance(w') < CloseOutDistance(w)
  {
    hide Justified;
    match w {
      case WPollQueues => case WWrite(_) => case WReplyOk(_) => case WReleaseOk(_) => case WFlush => case WPoll =>
      case WReadSignal => case WFail(_, _) => case _ =>
    }
  }

  lemma ClosingWriterNears(s: State, ev: WriterEvent, s': State)
    requires Sound(s) && Next(s, WriterActs(ev), s') && 0 < CloseOutRank(s) < FAR
    ensures CloseIsOut(s') || CloseOutDistance(s'.writer) < CloseOutDistance(s.writer)
    ensures CloseIsOut(s') || s'.core.signal == s.core.signal
  {
    hide WriterStep, WriterEffect, WriterEdge, Sound, SendOrder.ClosesWith, CoreOk, WriterOk, Answered;
    Handshake.SoundWriter(s);
    Handshake.WriterActuallySteps(s, ev, s');
    SendOrder.WireLogs(s, ev, s');
    ClosingEdge(s.core, s.writer, s.writerSeen, s'.writer);
    LastIsClose(s.log.wire);
    WriterSignals(s.core, s.writer);
    SignalsFrom(s.core, s.writer, s'.writer);
  }

  lemma SignalsFrom(c: Core, w: Writer, w': Writer)
    requires WriterEdge(c, w, w')
    ensures w'.WSendClose? ==> w.WReadSignal?
  {
  }

  lemma WriterSignals(c: Core, w: Writer)
    ensures WriterEffect(c, w).signal == c.signal || w.WFailSignal?
  {
  }

  lemma LastIsClose(wire: seq<Frame>)
    ensures SendOrder.ClosesWith(wire + [CloseFrameOut])
  {
  }

  lemma ClosingDescends(s: State, a: Option<Action>, s': State)
    requires Sound(s) && StepOrStay(s, a, s') && (InHandshake(s.writer) ==> SendOrder.ClosesWith(s.log.wire))
    ensures Falls(FAR, CloseOutRank(s), Ready(s, TheWriter) || OnTheWire(s.writer),
                  CloseOutRank(s'), Performs(a, TheWriter))
  {
    hide Sound, Next, CoreOk, WriterOk, SendOrder.ClosesWith, CloseOutDistance, WriterReady, OnTheWire, Moves;
    if 0 < CloseOutRank(s) < FAR {
      Handshake.SoundWriter(s);
      ClosingWriterGoesOn(s.core, s.writer, s.writerSeen);
      OnlyOwnSteps(s, a, s');
      if a.Some? {
        if a.value.WriterActs? {
          ClosingWriterNears(s, a.value.we, s');
        } else {
          StepIsSound(s, a.value, s');
          LocalCloseLeadsOn(s.core, s'.core);
        }
      }
    }
  }

  lemma LocalCloseLeadsOn(c: Core, d: Core)
    requires Moves(c, d) && c.signal.value.LocalClose?
    ensures d.signal.value.LocalClose? || PastLocal(d)
  {
  }

  lemma {:induction false} HandshakeHasFrame(h: History, w: Schedule, n: nat)
    requires Endless(h, w)
    ensures InHandshake(h(n).writer) ==> SendOrder.ClosesWith(h(n).log.wire)
  {
    hide Next, Sound, SendOrder.ClosesWith;
    if n == 0 {
    } else {
      hide Init;
      HandshakeHasFrame(h, w, n - 1);
      EndlessStep(h, w, n - 1);
      if w(n - 1).Some? {
        var a := w(n - 1).value;
        if a.WriterActs? {
          SoundCore(h(n - 1));
          WriterStepIsTraced(h(n - 1), a.we, h(n));
        } else {
          SendOrder.OthersLeaveWire(h(n - 1), a, h(n));
        }
      }
    }
  }

  // While the wire responds, a local close puts a close frame on it, unless the
  // peer closes or the connection fails first.
  lemma LocalCloseGoesOut(h: History, w: Schedule, n: nat) returns (m: nat)
    requires Fair(h, w) && WireResponds(h, w) && h(n).core.signal.value.LocalClose?
    ensures n <= m && CloseIsOut(h(m))
  {
    hide Init, Next, Sound, Ready, Performs, Weakly, AbortsHonoured, Follows, OnTheWire, WillMove, CloseIsOut;
    hide CloseOutDistance;
    EndlessIsSound(h, w, n);
    HandshakeHasFrame(h, w, n);
    ClosingIsNear(h(n));
    forall j: nat | n <= j ensures Lowers(h, w, TheWriter, CloseOutRank, FAR, j) {
      EndlessStep(h, w, j);
      HandshakeHasFrame(h, w, j);
      ClosingDescends(h(j), w(j), h(j + 1));
    }
    m := Progress(h, w, TheWriter, CloseOutRank, FAR, n);
    OnlyOutIsZero(h(m));
  }

  lemma ClosingIsNear(s: State)
    requires Sound(s) && s.core.signal.value.LocalClose?
    requires InHandshake(s.writer) ==> SendOrder.ClosesWith(s.log.wire)
    ensures CloseOutRank(s) < FAR
  {
    hide Sound, CloseOutDistance, WriterOk, CoreOk, SendOrder.ClosesWith;
    Handshake.SoundWriter(s);
    if !CloseIsOut(s) {
      ClosingWriterGoesOn(s.core, s.writer, s.writerSeen);
    }
  }

  lemma OnlyOutIsZero(s: State)
    requires CloseOutRank(s) == 0
    ensures CloseIsOut(s)
  {
  }

  // ----- the last item is published -----

  // The reader stands still until its next step.
  lemma {:induction false} NextReaderStep(h: History, w: Schedule, n: nat, b: nat) returns (j: nat)
    requires Endless(h, w) && n <= b && Performs(w(b), TheReader)
    ensures n <= j <= b && Performs(w(j), TheReader) && h(j).reader == h(n).reader
    decreases b - n
  {
    hide Init, Next;
    if Performs(w(n), TheReader) {
      j := n;
    } else {
      assert Follows(h, w, n);
      OnlyOwnSteps(h(n), w(n), h(n + 1));
      j := NextReaderStep(h, w, n + 1, b);
    }
  }

  lemma ReaderGoesOn(h: History, w: Schedule, n: nat) returns (j: nat)
    requires Fair(h, w) && Ready(h(n), TheReader)
    ensures n <= j && Performs(w(j), TheReader) && h(j).reader == h(n).reader
  {
    hide Init, Next, Ready, AbortsHonoured, Follows, Performs;
    assert Weakly(h, w, TheReader, n);
    var b: nat :| n <= b && Performs(w(b), TheReader);
    j := NextReaderStep(h, w, n, b);
  }

  lemma ConcludersAreReady(s: State, item: WireItem, o: DriverError)
    ensures Undecided(s.reader, item) || Deciding(s.reader, o) ==> Ready(s, TheReader)
  {
  }

  // The item with which the reading ends comes to be published: the reader
  // looks at `closing` at j, and at p it publishes what the item then means.
  lemma LastItemIsPublished(h: History, w: Schedule, n: nat, item: WireItem) returns (j: nat, p: nat)
    requires Fair(h, w) && w(n).Some? && ReadsAt(w(n).value, item) && EndsReading(item)
    ensures n < j < p && Undecided(h(j).reader, item)
    ensures var o := Conclusion(item, h(j).core.closing);
            && Publishes(h(p).reader, o)
            && h(p + 1).core.state.value == if IsClosed(h(p).core) then h(p).core.state.value
                                            else if o.Transport? then Closed(o) else PeerClosed(o)
  {
    hide Init, Next, Sound, Ready, Weakly, AbortsHonoured, Follows, Undecided, Deciding, Publishes;
    hide ReadsAt, Conclusion;
    EndlessStep(h, w, n);
    StepReads(h(n), w(n).value, h(n + 1), item);
    ConcludersAreReady(h(n + 1), item, ENDED);
    j := ReaderGoesOn(h, w, n + 1);
    EndlessStep(h, w, j);
    ReaderConcludes(h(j), w(j).value.re, h(j + 1), item);
    var o := Conclusion(item, h(j).core.closing);
    ConcludersAreReady(h(j + 1), item, o);
    p := ReaderGoesOn(h, w, j + 1);
    EndlessStep(h, w, p);
    if !Publishes(h(p).reader, o) {
      ReaderStores(h(p), w(p).value.re, h(p + 1), o);
      PublishersDecide(h(p + 1).reader, o);
      ConcludersAreReady(h(p + 1), item, o);
      p := ReaderGoesOn(h, w, p + 1);
      EndlessStep(h, w, p);
    }
    ReaderPublishes(h(p), w(p).value.re, h(p + 1), o);
  }

  // ----- dropping the driver -----

  // Once the last handle is gone abort() has published or is on its way to.
  ghost predicate DropAborts(s: State) {
    !s.core.handle ==>
      s.core.abandoned || exists i :: 0 <= i < |s.callers| && (s.callers[i].AStore? || s.callers[i].APublish?)
  }

  lemma AbortersAbandon(s: State, i: nat, ev: CallEvent, s': State)
    requires Next(s, CallerActs(i, ev), s')
    ensures i < |s.callers| && s'.callers == s.callers[i := s'.callers[i]] && s'.core.handle == s.core.handle
    ensures s.callers[i].AStore? ==> s'.callers[i].APublish?
    ensures s'.core.abandoned <==> s.core.abandoned || s.callers[i].APublish?
  {
    hide CloseStep, BeginCloseStep, AborterStep, AdmitStep, SendStep, ClaimStep, ReceiveStep, CallerEffect;
    CallerSummarized(s, i, ev, s');
  }

  lemma StepDropAborts(s: State, a: Action, s': State)
    requires Sound(s) && Next(s, a, s') && DropAborts(s)
    ensures DropAborts(s')
  {
    hide Sound, Moves;
    if a.HandleDrops? {
      assert s'.callers[|s.callers|].AStore?;
    } else if a.CallerActs? {
      hide Next;
      AbortersAbandon(s, a.i, a.ce, s');
      if !s.core.handle && !s.core.abandoned {
        var i :| 0 <= i < |s.callers| && (s.callers[i].AStore? || s.callers[i].APublish?);
        assert s'.core.abandoned || s'.callers[i].AStore? || s'.callers[i].APublish?;
      }
    } else {
      OthersKeepHandle(s, a, s');
      hide Next;
      OnlyOwnSteps(s, Some(a), s');
    }
  }

  lemma ReaderAbandonsNothing(c: Core, r: Reader)
    ensures ReaderEffect(c, r).abandoned == c.abandoned
  {
  }

  lemma OthersKeepHandle(s: State, a: Action, s': State)
    requires Next(s, a, s') && !a.CallerActs? && !a.HandleDrops?
    ensures s'.core.handle == s.core.handle && (s.core.abandoned ==> s'.core.abandoned)
  {
    hide ReaderStep, WriterStep, DogStep, ReaderEdge, WriterEdge, DogEdge, Quiet, Answered;
    hide ReaderEffect, WriterEffect, DogEffect;
    match a {
      case ReaderActs(ev) =>
        ReaderSummarized(s, ev, s');
        ReaderAbandonsNothing(s.core, s.reader);
      case WriterActs(ev) => WriterSummarized(s, ev, s');
      case DogActs(k, ev) => DogSummarized(s, k, ev, s');
      case _ =>
    }
  }

  lemma {:induction false} EndlessDropAborts(h: History, w: Schedule, n: nat)
    requires Endless(h, w)
    ensures DropAborts(h(n))
  {
    hide Next, Sound, DropAborts;
    if n == 0 {
      assert DropAborts(h(0)) by { FreshDropAborts(h(0)); }
    } else {
      hide Init;
      EndlessDropAborts(h, w, n - 1);
      EndlessStep(h, w, n - 1);
      if w(n - 1).Some? {
        StepDropAborts(h(n - 1), w(n - 1).value, h(n));
      }
    }
  }

  lemma FreshDropAborts(s: State)
    requires Init(s)
    ensures DropAborts(s)
  {
  }

  function AbandonRank(s: State, i: nat): nat {
    if s.core.abandoned then 0
    else if i >= |s.callers| then FAR
    else match s.callers[i] case AStore(_) => 2 case APublish(_) => 1 case _ => FAR
  }

  lemma AbandoningDescends(s: State, i: nat, a: Option<Action>, s': State)
    requires Sound(s) && StepOrStay(s, a, s')
    ensures Falls(FAR, AbandonRank(s, i), Ready(s, TheCaller(i)), AbandonRank(s', i), Performs(a, TheCaller(i)))
  {
    hide Next, Sound, Moves;
    if 0 < AbandonRank(s, i) < FAR {
      OnlyOwnSteps(s, a, s');
      if Performs(a, TheCaller(i)) {
        AbortersAbandon(s, i, a.value.ce, s');
      }
    }
  }

  lemma AbandonedMeansClosed(s: State)
    requires Sound(s) && s.core.abandoned
    ensures IsClosed(s.core)
  {
    hide ReaderOk, WriterOk, DogsOk, CallersOk, RepliesOk, InboundOk, OutboundOk, Counting.Counted;
    hide Counting.OneWatchdog, Timers.Timed, Outflow.Conserved, SendOrder.Ordered, SendOrder.WireTimed;
    hide Inflow.Delivering, Settling.Owed, Settling.Settled;
  }

  // Dropping the last handle ends the connection and all its tasks.
  lemma DroppedDriverEnds(h: History, w: Schedule, n: nat) returns (m: nat)
    requires Fair(h, w) && !h(n).core.handle
    ensures n <= m && IsClosed(h(m).core) && h(m).reader.RDone? && h(m).writer.WDone?
    ensures h(m).core.tasks.value == 0
  {
    hide Init, Next, Sound, Ready, Performs, Weakly, AbortsHonoured, Follows;
    EndlessDropAborts(h, w, n);
    var k := n;
    if !h(n).core.abandoned {
      var i :| 0 <= i < |h(n).callers| && (h(n).callers[i].AStore? || h(n).callers[i].APublish?);
      var rank := (s: State) => AbandonRank(s, i);
      forall j: nat | n <= j ensures Lowers(h, w, TheCaller(i), rank, FAR, j) {
        EndlessStep(h, w, j);
        AbandoningDescends(h(j), i, w(j), h(j + 1));
      }
      k := Progress(h, w, TheCaller(i), rank, FAR, n);
    }
    EndlessIsSound(h, w, k);
    AbandonedMeansClosed(h(k));
    m := ClosedDrainsToNothing(h, w, k);
    ClosedForGood(h, w, k, m);
  }
}
