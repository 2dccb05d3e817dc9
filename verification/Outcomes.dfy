// Where the final value of a connection comes from (src/driver.rs): a peer
// outcome survives everything but abort(), and a clean close has a cause on
// the wire.
module Outcomes {
  import opened Errors
  import opened Config
  import opened Cells
  import opened Machine
  import opened Effects
  import opened Assertions
  import opened Counting
  import opened Timers
  import opened Outflow
  import opened SendOrder
  import opened Inflow
  import opened Settling
  import opened Runs

  // ----- a peer outcome is preserved -----

  // abort(), also from Drop, is about to publish.
  ghost predicate AbandonsAt(s: State, a: Action) {
    a.CallerActs? && a.i < |s.callers| && s.callers[a.i].APublish?
  }

  lemma ReaderKeepsPeer(c: Core, r: Reader, seen: nat, o: DriverError)
    requires ReaderOk(c, r, seen) && c.state.value == PeerClosed(o)
    ensures ReaderEffect(c, r).state.value == PeerClosed(o) || ReaderEffect(c, r).state.value == Closed(o)
  {
  }

  lemma WriterKeepsPeer(c: Core, w: Writer, seen: nat, o: DriverError)
    requires WriterOk(c, w, seen) && c.state.value == PeerClosed(o)
    ensures WriterEffect(c, w).state.value == PeerClosed(o) || WriterEffect(c, w).state.value == Closed(o)
  {
    hide Justified;
    match w { case WPublishPeer(_) => case WFail(_, _) => case WFailSignal(_, _) => case WDropGuard => case _ => }
  }

  lemma DogKeepsPeer(c: Core, d: Dog, o: DriverError)
    requires c.state.value == PeerClosed(o)
    ensures DogEffect(c, d).state.value == PeerClosed(o) || DogEffect(c, d).state.value == Closed(o)
  {
  }

  lemma CallerKeepsPeer(c: Core, p: Caller, o: DriverError)
    requires c.state.value == PeerClosed(o)
    ensures CallerEffect(c, p).state.value == if p.APublish? then Closed(ABANDONED) else PeerClosed(o)
  {
  }

  lemma StepKeepsPeer(s: State, a: Action, s': State, o: DriverError)
    requires Sound(s) && Next(s, a, s') && s.core.state.value == PeerClosed(o)
    ensures if AbandonsAt(s, a) then s'.core.state.value == Closed(ABANDONED)
            else s'.core.state.value == PeerClosed(o) || s'.core.state.value == Closed(o)
  {
    hide CloseStep, BeginCloseStep, AborterStep, AdmitStep, SendStep, ClaimStep, ReceiveStep, Quiet;
    hide ReaderStep, WriterStep, DogStep, ReaderEdge, WriterEdge, DogEdge, ControlEdge, Controls, Answered;
    hide ReaderEffect, WriterEffect, DogEffect, CallerEffect;
    hide CoreOk, ReaderOk, WriterOk, DogsOk, CallersOk, RepliesOk, InboundOk, OutboundOk, Counted, OneWatchdog, Timed;
    hide Conserved, Ordered, WireTimed, Delivering, Owed, Settled;
    match a {
      case ReaderActs(ev) =>
        ReaderSummarized(s, ev, s');
        ReaderKeepsPeer(s.core, s.reader, s.readerSeen, o);
      case WriterActs(ev) =>
        WriterSummarized(s, ev, s');
        WriterKeepsPeer(s.core, s.writer, s.writerSeen, o);
      case DogActs(k, ev) =>
        DogSummarized(s, k, ev, s');
        DogKeepsPeer(s.core, s.dogs[k], o);
      case CallerActs(i, ev) =>
        CallerSummarized(s, i, ev, s');
        CallerKeepsPeer(s.core, s.callers[i], o);
      case _ =>
    }
  }

  // Between j and k, abort() published while the peer outcome was pending.
  ghost predicate Abandoned(states: seq<State>, acts: seq<Action>, j: nat, k: nat)
    requires Run(states, acts) && k < |states|
  {
    exists m :: j <= m < k && states[m].core.state.value.PeerClosed? && AbandonsAt(states[m], acts[m])
  }

  // Once PeerClosed(o) has been published, the Closed value is o on every
  // schedule of writer failure, flush failure and expiring timers, if and only
  // if abort() did not publish in between.
  lemma {:induction false} PeerOutcomeIsPreserved(states: seq<State>, acts: seq<Action>, j: nat, k: nat, o: DriverError)
    requires Run(states, acts) && j <= k < |states| && states[j].core.state.value == PeerClosed(o)
    ensures states[k].core.state.value == if Abandoned(states, acts, j, k) then Closed(ABANDONED)
                                          else if IsClosed(states[k].core) then Closed(o) else PeerClosed(o)
    ensures o != ABANDONED
    decreases k
  {
    hide Init, Next, Sound, AbandonsAt;
    PeerOutcomesAreCloses(states, acts, j, o);
    if j == k {
    } else {
      PeerOutcomeIsPreserved(states, acts, j, k - 1, o);
      RunIsSound(states, acts, k - 1);
      RunOnward(states, acts, k - 1, k);
      assert Abandoned(states, acts, j, k) <==>
             Abandoned(states, acts, j, k - 1)
             || (states[k - 1].core.state.value.PeerClosed? && AbandonsAt(states[k - 1], acts[k - 1]));
      if states[k - 1].core.state.value == PeerClosed(o) {
        StepKeepsPeer(states[k - 1], acts[k - 1], states[k], o);
      }
    }
  }

  lemma PeerOutcomesAreCloses(states: seq<State>, acts: seq<Action>, j: nat, o: DriverError)
    requires Run(states, acts) && j < |states| && states[j].core.state.value == PeerClosed(o)
    ensures o.ClosedOk? || o.ClosedError?
  {
    hide Init, Next, ClassifyClose;
    RunIsSound(states, acts, j);
    JustifiedIsAClose(states[j].core, o);
  }

  lemma JustifiedIsAClose(c: Core, o: DriverError)
    requires CoreOk(c) && c.state.value == PeerClosed(o)
    ensures o.ClosedOk? || o.ClosedError?
  {
  }

  // ----- where an outcome comes from -----

  // The peer's close frame came off the wire before step k.
  ghost predicate FrameRead(acts: seq<Action>, k: nat, frame: Option<CloseFrame>)
    requires k <= |acts|
  {
    exists m :: 0 <= m < k && acts[m] == ReaderActs(RWire(WireItem.PeerCloses(frame)))
  }

  // An end of stream, a ConnectionClosed error, or an inbound queue whose
  // receiver is gone.
  ghost predicate EndsOrderly(s: State, a: Action) {
    || a == ReaderActs(RWire(EndOfStream))
    || (a.ReaderActs? && a.re.RWire? && a.re.item.ReadError? && a.re.item.connectionClosed)
    || (a == ReaderActs(RGo) && s.reader.REnqueue? && s.inq.gone)
  }

  ghost predicate EndSeen(states: seq<State>, acts: seq<Action>, k: nat)
    requires |states| == |acts| + 1 && k <= |acts|
  {
    exists m :: 0 <= m < k && EndsOrderly(states[m], acts[m])
  }

  // The reader then found `closing` set.
  ghost predicate JudgedOrderly(states: seq<State>, k: nat)
    requires k <= |states|
  {
    exists m :: 0 <= m < k && states[m].reader.RJudge? && states[m].reader.orderly && states[m].core.closing
  }

  // A close() or abort() had set the flag.
  ghost predicate Begins(s: State, a: Action) {
    a.CallerActs? && a.i < |s.callers| && (s.callers[a.i].CSwap? || s.callers[a.i].AStore?)
  }

  ghost predicate LocalBegan(states: seq<State>, acts: seq<Action>, k: nat)
    requires |states| == |acts| + 1 && k <= |acts|
  {
    exists m :: 0 <= m < k && Begins(states[m], acts[m])
  }

  // What the reader's position and verdict tell of the run so far.
  ghost predicate Traced(states: seq<State>, acts: seq<Action>, k: nat)
    requires |states| == |acts| + 1 && k <= |acts|
  {
    var s := states[k];
    && (s.reader.RLoadClosing? ==> FrameRead(acts, k, s.reader.frame))
    && (s.reader.RStoreClosing? ==> FrameRead(acts, k, s.reader.frame))
    && (s.reader.RJudge? && s.reader.orderly ==> EndSeen(states, acts, k))
    && (match s.core.verdict
        case Some(PeerFrame(frame, _)) => FrameRead(acts, k, frame)
        case Some(OrderlyEnd) => EndSeen(states, acts, k) && JudgedOrderly(states, k)
        case _ => true)
    && (s.core.begun ==> LocalBegan(states, acts, k))
  }

  lemma HistoryGrows(states: seq<State>, acts: seq<Action>, k: nat)
    requires |states| == |acts| + 1 && k < |acts|
    ensures EndSeen(states, acts, k) || EndsOrderly(states[k], acts[k]) ==> EndSeen(states, acts, k + 1)
    ensures JudgedOrderly(states, k) ==> JudgedOrderly(states, k + 1)
    ensures states[k].reader.RJudge? && states[k].reader.orderly && states[k].core.closing ==>
            JudgedOrderly(states, k + 1)
    ensures LocalBegan(states, acts, k) || Begins(states[k], acts[k]) ==> LocalBegan(states, acts, k + 1)
    ensures forall frame :: FrameRead(acts, k, frame) ==> FrameRead(acts, k + 1, frame)
    ensures acts[k].ReaderActs? && acts[k].re.RWire? && acts[k].re.item.PeerCloses? ==>
              FrameRead(acts, k + 1, acts[k].re.item.frame)
  {
  }

  // How the reader gets to where it learns of an end.
  lemma ReaderLearns(s: State, ev: ReaderEvent, s': State)
    requires ReaderStep(s, ev, s') && Reading(s) && Limits(s.cfg)
    ensures s'.reader.RLoadClosing? ==> ev == RWire(WireItem.PeerCloses(s'.reader.frame))
    ensures s'.reader.RStoreClosing? ==> s.reader == RLoadClosing(s'.reader.frame)
    ensures s'.reader.RJudge? && s'.reader.orderly ==> EndsOrderly(s, ReaderActs(ev))
  {
    if s.reader.RGate? {
      assert s.reader.m in ReaderHand(s.reader);
    }
    if ReaderReads(s, ev, s') {
      match s.reader { case RSelect => case RTop => case _ => }
    } else if QueueInbound(s, ev, s') {
      match s.reader { case RGate(_) => case RAcquire(_) => case _ => }
    } else if ReaderJudges(s, ev, s') {
      match s.reader { case RLoadClosing(_) => case RStoreClosing(_, _) => case _ => }
    } else if FinishPeerClose(s, ev, s') {
      match s.reader { case RPublishPeer(_) => case RSignalPeer(_) => case _ => }
    } else if ReaderWaits(s, ev, s') {
      match s.reader { case RWaitCheck(_, _, _) => case RWaitPark(_, _, _) => case RLateTerminal(_) => case _ => }
    } else if FinishReaderFailure(s, ev, s') {
      match s.reader { case RPublishFailure(_) => case RSignalFailure => case _ => }
    } else if ReaderDrops(s, ev, s') {
      match s.reader { case RDropControl => case RDropInbound => case _ => }
    }
  }

  lemma ReaderDecides(c: Core, r: Reader)
    ensures var d := ReaderEffect(c, r);
            && (d.verdict == c.verdict
                || (r.RStoreClosing? && d.verdict == Some(PeerFrame(r.frame, r.local)))
                || (r.RJudge? && r.orderly && c.closing && d.verdict == Some(OrderlyEnd))
                || d.verdict == Some(BrokenEnd))
  {
  }

  lemma OthersDecideNothing(s: State, a: Action, s': State)
    requires Next(s, a, s') && !a.ReaderActs?
    ensures s'.core.verdict == s.core.verdict && s'.reader == s.reader
    ensures s'.core.begun && !s.core.begun ==> Begins(s, a)
  {
    hide CloseStep, BeginCloseStep, AborterStep, AdmitStep, SendStep, ClaimStep, ReceiveStep, Quiet;
    hide WriterStep, DogStep, WriterEdge, DogEdge, ControlEdge, Controls, Answered, WriterEffect, DogEffect;
    hide CallerEffect;
    match a {
      case WriterActs(ev) => WriterSummarized(s, ev, s');
      case DogActs(k, ev) => DogSummarized(s, k, ev, s');
      case CallerActs(i, ev) => CallerSummarized(s, i, ev, s');
      case _ =>
    }
  }

  lemma SoundReads(s: State)
    requires Sound(s)
    ensures Reading(s) && Limits(s.cfg)
  {
    hide CoreOk, ReaderOk, WriterOk, DogsOk, CallersOk, RepliesOk, InboundOk, OutboundOk, Counted, OneWatchdog, Timed;
    hide Conserved, Ordered, WireTimed, Owed, Settled, Reading, Receiving, InboundBytes, HandsHoldLast, Exhausted;
    hide HandleGone;
  }

  lemma StepIsTraced(states: seq<State>, acts: seq<Action>, k: nat)
    requires |states| == |acts| + 1 && k < |acts| && Next(states[k], acts[k], states[k + 1])
    requires Sound(states[k]) && Traced(states, acts, k)
    ensures Traced(states, acts, k + 1)
  {
    hide Sound, FrameRead, EndSeen, JudgedOrderly, LocalBegan, EndsOrderly, Begins;
    HistoryGrows(states, acts, k);
    SoundReads(states[k]);
    if acts[k].ReaderActs? {
      hide ReaderStep, ReaderEffect, ReaderEdge, Reading;
      var ev := acts[k].re;
      ReaderSummarized(states[k], ev, states[k + 1]);
      ReaderLearns(states[k], ev, states[k + 1]);
      ReaderDecides(states[k].core, states[k].reader);
    } else {
      hide Next, Reading;
      OthersDecideNothing(states[k], acts[k], states[k + 1]);
    }
  }

  lemma InitIsTraced(states: seq<State>, acts: seq<Action>)
    requires |states| == |acts| + 1 && Init(states[0])
    ensures Traced(states, acts, 0)
  {
  }

  lemma {:induction false} RunIsTraced(states: seq<State>, acts: seq<Action>, k: nat)
    requires Run(states, acts) && k < |states|
    ensures Traced(states, acts, k)
  {
    hide Init, Next, Sound, Traced;
    if k == 0 {
      InitIsTraced(states, acts);
    } else {
      RunIsTraced(states, acts, k - 1);
      RunIsSound(states, acts, k - 1);
      StepIsTraced(states, acts, k - 1);
    }
  }

  // A Closed value that is not a transport error has a cause: a close frame
  // that came off the wire and is classified as the value says, or an orderly
  // end seen while `closing` was set by a local close.
  lemma OutcomeHasACause(states: seq<State>, acts: seq<Action>, k: nat, e: DriverError)
    requires Run(states, acts) && k < |states| && states[k].core.state.value == Closed(e)
    ensures e.Transport?
            || (exists frame, local :: FrameRead(acts, k, frame) && e == ClassifyClose(frame, local)
                                       && (e.ClosedOk? <==> CleanFrame(frame)))
            || (e == ClosedOk(LOCAL_NORMAL) && EndSeen(states, acts, k) && JudgedOrderly(states, k))
    ensures (e.ClosedOk? || e.ClosedError?) && e.info.initiatedByLocal ==> LocalBegan(states, acts, k)
  {
    hide Init, Next, Sound, FrameRead, EndSeen, JudgedOrderly, LocalBegan, CleanFrame;
    RunIsSound(states, acts, k);
    RunIsTraced(states, acts, k);
    SoundMeansJustified(states[k], e);
  }

  lemma SoundMeansJustified(s: State, e: DriverError)
    requires Sound(s) && s.core.state.value == Closed(e)
    ensures e.Transport? || Justified(s.core, e)
  {
    hide ReaderOk, WriterOk, DogsOk, CallersOk, RepliesOk, InboundOk, OutboundOk, Counted, OneWatchdog, Timed;
    hide Conserved, Ordered, WireTimed, Delivering, Owed, Settled, Justified;
  }

  // A clean close frame came off the wire, or such an end.
  ghost predicate EndedCleanly(states: seq<State>, acts: seq<Action>, k: nat, e: DriverError)
    requires |states| == |acts| + 1 && k <= |acts|
  {
    || (exists frame, local :: FrameRead(acts, k, frame) && CleanFrame(frame) && e == ClassifyClose(frame, local))
    || (e == ClosedOk(LOCAL_NORMAL) && EndSeen(states, acts, k) && JudgedOrderly(states, k))
  }

  // A close() that has returned succeeded if and only if the connection ended
  // cleanly, and with the value the state is Closed with.
  lemma CloseSucceedsAfterCleanEnd(states: seq<State>, acts: seq<Action>, k: nat, i: nat)
    requires Run(states, acts) && k < |states| && i < |states[k].callers| && states[k].callers[i].CloseDone?
    ensures var e := states[k].callers[i].terminal;
            && states[k].core.state.value == Closed(e)
            && (CloseResult(e) == Success <==> EndedCleanly(states, acts, k, e))
            && (CloseResult(e) != Success ==> states[k].core.state.value == Closed(CloseResult(e).error))
  {
    hide Init, Next, Sound, FrameRead, EndSeen, JudgedOrderly, LocalBegan, CleanFrame, ClassifyClose;
    RunIsSound(states, acts, k);
    ReportsAreFinal(states[k], i);
    OutcomeHasACause(states, acts, k, states[k].callers[i].terminal);
  }
}
