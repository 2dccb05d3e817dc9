// A Closed connection drains to nothing, and every close() returns (src/driver.rs,
// run_reader, run_writer, begin_close and wait_for_driver_tasks), on every fair
// endless run.
module Draining {
  import opened Errors
  import opened Cells
  import opened Lanes
  import opened Machine
  import opened Effects
  import opened Assertions
  import opened Counting
  import opened Timers
  import opened Outflow
  import opened Settling
  import opened Runs
  import opened Fairness
  import SendOrder
  import Inflow

  // Above every rank: nothing is promised yet.
  const FAR := 100

  // ----- the reader, once it has been told -----

  function ReaderRank(s: State): nat { ReaderDistance(s.core.signal.value.Abort?, s.reader) }

  // How far the reader is from its end in a Closed state; told: the signal is
  // Abort.
  function ReaderDistance(told: bool, r: Reader): nat {
    match r
    case RUnstarted => if told then 30 else FAR
    case RAcquire(_) => if told then 29 else FAR
    case REnqueue(_) => if told then 28 else FAR
    case RSelect => if told then 27 else FAR
    case RGate(_) => if told then 26 else FAR
    case RFlushRequest => if told then 26 else FAR
    case RTop => if told then 25 else FAR
    case RRecheck => if told then 24 else FAR
    case RLoadClosing(_) => 20
    case RStoreClosing(_, _) => 19
    case RJudge(_, _) => 19
    case RPublishPeer(_) => 18
    case RSignalPeer(_) => 17
    case RArm(_) => 16
    case RWaitPark(_, _, _) => 15
    case RWaitCheck(_, _, _) => 14
    case RLateTerminal(_) => 13
    case RLateAbort => 12
    case RPublishFailure(_) => 18
    case RSignalFailure => 17
    case RAbortWriter => 16
    case RDropControl => 4
    case RDropInbound => 3
    case RDropTransport => 2
    case RDropGuard => 1
    case RDone => 0
  }

  lemma ReaderCanGoOn(c: Core, r: Reader, seen: nat)
    requires ReaderOk(c, r, seen) && IsClosed(c) && 0 < ReaderDistance(c.signal.value.Abort?, r) < FAR
    ensures ReaderReady(c, r, seen)
  {
  }

  lemma ReaderFalls(timeout: nat, c: Core, r: Reader, r': Reader)
    requires ReaderEdge(timeout, c, r, r') && IsClosed(c)
    requires ReaderDistance(c.signal.value.Abort?, r) < FAR
    ensures ReaderDistance(ReaderEffect(c, r).signal.value.Abort?, r') < ReaderDistance(c.signal.value.Abort?, r)
  {
    match r {
      case RUnstarted => case RAcquire(_) => case REnqueue(_) => case RSelect => case RGate(_) => case RFlushRequest =>
      case RTop => case RRecheck => case RLoadClosing(_) => case RStoreClosing(_, _) => case RJudge(_, _) =>
      case RPublishPeer(_) => case RSignalPeer(_) => case RArm(_) => case RWaitPark(_, _, _) =>
      case RWaitCheck(_, _, _) =>
      case RLateTerminal(_) => case RLateAbort => case RPublishFailure(_) => case RSignalFailure => case RAbortWriter =>
      case RDropControl => case RDropInbound => case RDropTransport => case RDropGuard => case RDone =>
    }
  }

  lemma TellingIsNoDetour(r: Reader)
    ensures ReaderDistance(true, r) <= ReaderDistance(false, r) <= FAR
  {
  }

  lemma ReaderDescends(s: State, a: Option<Action>, s': State)
    requires Sound(s) && IsClosed(s.core) && StepOrStay(s, a, s')
    ensures Falls(FAR, ReaderRank(s), Ready(s, TheReader), ReaderRank(s'), Performs(a, TheReader))
  {
    hide CoreOk, ReaderOk, WriterOk, DogsOk, CallersOk, RepliesOk, InboundOk, OutboundOk, Counted, OneWatchdog, Timed;
    hide Conserved, SendOrder.Ordered, SendOrder.WireTimed, Inflow.Delivering, Owed, Settled, Next, ReaderReady;
    hide ReaderDistance;
    if ReaderRank(s) == 0 || ReaderRank(s) >= FAR {
      return;
    }
    ReaderCanGoOn(s.core, s.reader, s.readerSeen);
    if a.Some? {
      StepIsSound(s, a.value, s');
      OnlyOwnSteps(s, a, s');
      TellingIsNoDetour(s.reader);
      if a.value.ReaderActs? {
        ReaderActuallySteps(s, a.value.re, s');
        ReaderFalls(s.cfg.closeTimeout, s.core, s.reader, s'.reader);
      }
    }
  }

  lemma ReaderActuallySteps(s: State, ev: ReaderEvent, s': State)
    requires Next(s, ReaderActs(ev), s')
    ensures ReaderEdge(s.cfg.closeTimeout, s.core, s.reader, s'.reader) && s'.core == ReaderEffect(s.core, s.reader)
  {
    hide ReaderStep, ReaderEdge, ReaderEffect;
    ReaderSummarized(s, ev, s');
  }

  // ----- the writer on its way out -----

  function WriterRank(s: State): nat {
    match s.writer
    case WFailSignal(_, _) => s.cfg.maxQueue + 9
    case WReplyErr(_, _) => s.cfg.maxQueue + 8
    case WDropCommand(_) => s.cfg.maxQueue + 8
    case WRelease(_) => s.cfg.maxQueue + 7
    case WShut => s.cfg.maxQueue + 6
    case WDrain => 4 + s.outq.reserved + |s.outq.queue|
    case WDropTransport => 2
    case WDropGuard => 1
    case WDone => 0
    case _ => s.cfg.maxQueue + FAR
  }

  // A shut lane takes no new reservation, so draining it comes to an end.
  lemma SendersShrinkShutLane(s: State, i: nat, ev: CallEvent, s': State)
    requires i < |s.callers| && (AdmitStep(s, i, ev, s') || SendStep(s, i, ev, s')) && s.outq.closed
    ensures s'.outq.reserved + |s'.outq.queue| <= s.outq.reserved + |s.outq.queue|
  {
    hide TerminalError, HasSlot;
    match s.callers[i] {
      case SCheck(_) => case SBytes(_) => case SReserve(_) => case STerminal(_) => case SRefund(_, _) =>
      case SAdmitted(_) => case SUnreserve(_) => case SWaiting => case _ =>
    }
  }

  lemma OthersShrinkShutLane(s: State, a: Action, s': State)
    requires Next(s, a, s') && !a.WriterActs? && s.outq.closed
    ensures s'.outq.reserved + |s'.outq.queue| <= s.outq.reserved + |s.outq.queue|
  {
    hide CloseStep, BeginCloseStep, AborterStep, AdmitStep, SendStep, ClaimStep, ReceiveStep, Quiet;
    hide ReaderStep, DogStep, ReaderEdge, DogEdge, ControlEdge, Controls, ReaderEffect, DogEffect, CallerEffect, Sends;
    match a {
      case ReaderActs(ev) => ReaderSummarized(s, ev, s');
      case DogActs(k, ev) => DogSummarized(s, k, ev, s');
      case CallerActs(i, ev) =>
        OtherCallsLeaveLane(s, i, ev, s');
        if AdmitStep(s, i, ev, s') || SendStep(s, i, ev, s') {
          SendersShrinkShutLane(s, i, ev, s');
        }
      case _ =>
    }
  }

  lemma WriterFalls(s: State, ev: WriterEvent, s': State)
    requires Next(s, WriterActs(ev), s') && WriterRank(s) < s.cfg.maxQueue + FAR
    requires s.outq.reserved + |s.outq.queue| <= s.cfg.maxQueue
    ensures WriterRank(s') < WriterRank(s)
  {
    hide WriterStep, WriterEffect, Answered, WriterLane, WriterEdge, WriterRank;
    WriterSummarized(s, ev, s');
    if s.writer.WDrain? {
      WriterDrainsOn(s, ev, s');
      DrainingRank(s);
      DrainingRank(s');
    } else {
      if s.writer.WShut? {
        ShutLaneIsKept(s, ev, s');
      }
      WriterEdgeFalls(s, s');
    }
  }

  lemma DrainingRank(s: State)
    ensures s.writer.WDrain? ==> WriterRank(s) == 4 + s.outq.reserved + |s.outq.queue|
    ensures s.writer.WDropTransport? ==> WriterRank(s) == 2
  {
  }

  lemma ShutLaneIsKept(s: State, ev: WriterEvent, s': State)
    requires WriterStep(s, ev, s') && s.writer.WShut?
    ensures s'.outq.reserved == s.outq.reserved && s'.outq.queue == s.outq.queue && s'.cfg == s.cfg
  {
  }

  lemma WriterEdgeFalls(s: State, s': State)
    requires WriterEdge(s.core, s.writer, s'.writer) && s'.cfg == s.cfg && !s.writer.WDrain?
    requires WriterRank(s) < s.cfg.maxQueue + FAR
    requires s.writer.WShut? ==> s'.outq.reserved + |s'.outq.queue| <= s.cfg.maxQueue
    ensures WriterRank(s') < WriterRank(s)
  {
  }

  lemma WriterDrainsOn(s: State, ev: WriterEvent, s': State)
    requires Next(s, WriterActs(ev), s') && s.writer.WDrain?
    ensures if s.outq.queue == [] then s'.writer.WDropTransport?
            else s'.writer.WDrain? && s'.outq.queue == s.outq.queue[1..] && s'.outq.reserved == s.outq.reserved
  {
  }

  lemma WriterDescends(s: State, a: Option<Action>, s': State)
    requires Sound(s) && StepOrStay(s, a, s')
    ensures Falls(s.cfg.maxQueue + FAR, WriterRank(s), Ready(s, TheWriter), WriterRank(s'), Performs(a, TheWriter))
    ensures s'.cfg == s.cfg
  {
    hide CoreOk, ReaderOk, WriterOk, DogsOk, CallersOk, RepliesOk, InboundOk, Counted, OneWatchdog, Timed;
    hide SendOrder.Ordered, SendOrder.WireTimed, Inflow.Delivering, Owed, Settled, Next;
    OnlyOwnSteps(s, a, s');
    if a.Some? && 0 < WriterRank(s) < s.cfg.maxQueue + FAR {
      if a.value.WriterActs? {
        WriterFalls(s, a.value.we, s');
      } else if s.outq.closed {
        OthersShrinkShutLane(s, a.value, s');
      }
    }
  }

  // ----- the watchdogs -----

  function DogRank(s: State, k: nat): nat { if k < |s.dogs| then DogDistance(s.dogs[k]) else FAR }

  function DogDistance(d: Dog): nat {
    match d
    case DStart(_) => 8
    case DPark(_, _) => 7
    case DCheck(_, _) => 6
    case DFire => 5
    case DAbortReader => 4
    case DAbortWriter => 3
    case DDropGuard => 2
    case DDone => 0
  }

  lemma DogFalls(timeout: nat, c: Core, d: Dog, d': Dog)
    requires DogEdge(timeout, c, d, d') && IsClosed(c)
    ensures DogDistance(d') < DogDistance(d)
  {
  }

  lemma DogCanGoOn(c: Core, d: Dog)
    requires DogOk(c, d) && IsClosed(c) && DogDistance(d) > 0
    ensures DogReady(c, d)
  {
  }

  lemma DogDescends(s: State, k: nat, a: Option<Action>, s': State)
    requires Sound(s) && IsClosed(s.core) && StepOrStay(s, a, s')
    ensures Falls(FAR, DogRank(s, k), Ready(s, TheDog(k)), DogRank(s', k), Performs(a, TheDog(k)))
  {
    hide CoreOk, ReaderOk, WriterOk, DogOk, CallersOk, RepliesOk, InboundOk, OutboundOk, Counted, OneWatchdog, Timed;
    hide Conserved, SendOrder.Ordered, SendOrder.WireTimed, Inflow.Delivering, Owed, Settled, DogStep, DogReady;
    hide DogDistance, DogEdge;
    if DogRank(s, k) == 0 || DogRank(s, k) >= FAR {
      return;
    }
    assert DogOk(s.core, s.dogs[k]);
    DogCanGoOn(s.core, s.dogs[k]);
    if Performs(a, TheDog(k)) {
      DogSummarized(s, k, a.value.de, s');
      DogFalls(s.cfg.closeTimeout, s.core, s.dogs[k], s'.dogs[k]);
    } else {
      hide Next;
      OnlyOwnSteps(s, a, s');
    }
  }

  // ----- a close() on its way through begin_close -----

  function BeginRank(s: State, i: nat): nat { if i < |s.callers| then BeginDistance(s.callers[i]) else 0 }

  lemma BeginFalls(c: Core, p: Caller, p': Caller)
    requires if Controls(p) then ControlEdge(c, p, p') else !Controls(p')
    ensures BeginDistance(p') <= BeginDistance(p) && (BeginDistance(p) > 0 ==> BeginDistance(p') < BeginDistance(p))
  {
    match p {
      case CRead => case CGuard => case CSwap => case CBegin => case CSignal => case CTimer => case CSpawn =>
      case CDropGuard => case CCheck(_) => case CPark(_) => case CTasks(_, _) => case CTasksPark(_, _) =>
      case AStore(_) => case APublish(_) => case ASignal(_) => case AReader(_) => case AWriter(_) =>
      case ADropInbound => case _ =>
    }
  }

  lemma BeginDescends(s: State, i: nat, a: Option<Action>, s': State)
    requires StepOrStay(s, a, s')
    ensures Falls(FAR, BeginRank(s, i), Ready(s, TheCaller(i)), BeginRank(s', i), Performs(a, TheCaller(i)))
  {
    if BeginRank(s, i) == 0 {
      return;
    }
    hide Next, BeginDistance, ControlEdge, Controls, CallerEffect;
    StartersAreReady(s, i);
    OnlyOwnSteps(s, a, s');
    if Performs(a, TheCaller(i)) {
      CallerSummarized(s, i, a.value.ce, s');
      BeginFalls(s.core, s.callers[i], s'.callers[i]);
    }
  }

  lemma StartersAreReady(s: State, i: nat)
    requires i < |s.callers|
    ensures BeginDistance(s.callers[i]) > 0 ==> Ready(s, TheCaller(i))
  {
  }

  // ----- a close() waiting for the end -----

  function EndRank(s: State, i: nat): nat { if i < |s.callers| then EndDistance(s.callers[i]) else FAR }

  function EndDistance(p: Caller): nat {
    match p
    case CPark(_) => 4
    case CCheck(_) => 3
    case CTasksPark(_, _) => 2
    case CTasks(_, _) => 1
    case CloseDone(_) => 0
    case CloseCancelled => 0
    case _ => FAR
  }

  lemma EndFalls(c: Core, p: Caller, p': Caller)
    requires (if Controls(p) then ControlEdge(c, p, p') else !Controls(p')) && EndDistance(p) < FAR
    requires IsClosed(c) && c.tasks.value == 0
    ensures EndDistance(p') < EndDistance(p)
  {
  }

  // No wake-up is lost: a waiter has not seen the last version.
  lemma WaitersAreReady(s: State, i: nat)
    requires i < |s.callers| && CallerOk(s.core, s.callers[i]) && 0 < EndDistance(s.callers[i]) < FAR
    requires IsClosed(s.core) && s.core.tasks.value == 0
    ensures Ready(s, TheCaller(i))
  {
  }

  lemma EndDescends(s: State, i: nat, a: Option<Action>, s': State)
    requires Sound(s) && IsClosed(s.core) && s.core.tasks.value == 0 && StepOrStay(s, a, s')
    ensures Falls(FAR, EndRank(s, i), Ready(s, TheCaller(i)), EndRank(s', i), Performs(a, TheCaller(i)))
  {
    hide CoreOk, ReaderOk, WriterOk, DogsOk, CallerOk, RepliesOk, InboundOk, OutboundOk, Counted, OneWatchdog, Timed;
    hide Conserved, SendOrder.Ordered, SendOrder.WireTimed, Inflow.Delivering, Owed, Settled;
    hide Next, EndDistance, ControlEdge, Controls, CallerEffect, CallerReady;
    if EndRank(s, i) == 0 || EndRank(s, i) >= FAR {
      return;
    }
    assert CallerOk(s.core, s.callers[i]);
    WaitersAreReady(s, i);
    OnlyOwnSteps(s, a, s');
    if Performs(a, TheCaller(i)) {
      CallerSummarized(s, i, a.value.ce, s');
      EndFalls(s.core, s.callers[i], s'.callers[i]);
    }
  }
}
