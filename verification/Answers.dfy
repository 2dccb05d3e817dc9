// What the calls answer and why (src/driver.rs, try_admit_outbound,
// send_admitted, receive and close): a refusal names the check that failed, a
// send that was queued answers what became of its message, and nothing answers
// cancelled that was not.
module Answers {
  import opened Errors
  import opened Config
  import opened Cells
  import opened Lanes
  import opened Machine
  import opened Effects
  import opened Assertions
  import opened Outflow
  import opened SendOrder
  import opened Inflow
  import opened Runs
  import Counting
  import Timers
  import Settling
  import Fairness

  // ----- why a send is refused -----

  // The check that the send has come to refuses it, with e.
  ghost predicate Refuses(s: State, p: Caller, ev: CallEvent, e: DriverError) {
    match p
    case SCheck(size) =>
      (match s.core.state.value
       case Open => size > s.cfg.maxMessageSize && e == TOO_LARGE
       case Closing => e == ClosedOk(LOCAL_NORMAL)
       case PeerClosed(outcome) => e == outcome
       case Closed(outcome) => e == outcome)
    case SBytes(size) => size > s.outq.free && e == NO_BYTES
    case SReserve(_) => !s.outq.closed && s.outq.reserved + |s.outq.queue| >= s.cfg.maxQueue && e == NO_SLOT
    case STerminal(_) => s.core.state.value == Closed(e)
    case SAdmitted(_) => ev.Mismatch? && e == CHANGED
    case _ => false
  }

  ghost predicate RefusesAt(s: State, a: Action, i: nat, e: DriverError) {
    a.CallerActs? && a.i == i && i < |s.callers| && Refuses(s, s.callers[i], a.ce, e)
  }

  ghost predicate RefusedBy(states: seq<State>, acts: seq<Action>, k: nat, i: nat, e: DriverError)
    requires |states| == |acts| + 1 && k <= |acts|
  {
    exists m :: 0 <= m < k && RefusesAt(states[m], acts[m], i, e)
  }

  ghost predicate CancelledBy(acts: seq<Action>, k: nat, i: nat)
    requires k <= |acts|
  {
    exists m :: 0 <= m < k && acts[m] == CallerActs(i, Cancel)
  }

  // Another receive had the claim when this one came.
  ghost predicate BusyAt(s: State, a: Action, i: nat) {
    && a.CallerActs? && a.i == i && i < |s.callers| && s.callers[i].VClaim?
    && exists j :: 0 <= j < |s.callers| && j != i && Past(s.callers[j]) > 0
  }

  ghost predicate BusyBy(states: seq<State>, acts: seq<Action>, k: nat, i: nat)
    requires |states| == |acts| + 1 && k <= |acts|
  {
    exists m :: 0 <= m < k && BusyAt(states[m], acts[m], i)
  }

  // ----- one step of a call -----

  ghost predicate SendCounts(s: State, ev: CallEvent, p: Caller, p': Caller) {
    && (p'.SBytes? ==> p == SCheck(p'.size) && p'.size <= s.cfg.maxMessageSize)
    && (p'.SReserve? ==> p == SBytes(p'.size))
    && (p'.SAdmitted? ==> p == SReserve(p'.size))
    && (p'.STerminal? ==> p == SReserve(p'.size))
    && (p'.SRefund? ==> Refuses(s, p, ev, p'.error))
    && (p'.SUnreserve? ==>
          || (p'.sent == SendCancelled && ev.Cancel?)
          || (p'.sent.SendRefused? && Refuses(s, p, ev, p'.sent.error)))
    && (p'.SendDone? ==>
          match p'.sent
          case SendRefused(e) => Refuses(s, p, ev, e) || (p.SRefund? && p.error == e) || p == SUnreserve(p'.sent)
          case SendCancelled => ev.Cancel? || p == SUnreserve(p'.sent)
          case _ => p.SWaiting? || p.SLost? || p == SUnreserve(p'.sent))
  }

  function Carried(p: Caller): Option<Received> {
    if p.VUnlock? || p.VUnclaim? || p.ReceiveDone? then Some(p.received) else None
  }

  ghost predicate ReceiveCounts(s: State, ev: CallEvent, p: Caller, p': Caller) {
    Carried(p').Some? && Carried(p') != Carried(p) ==>
      match Carried(p').value
      case ReceiveCancelled => ev.Cancel?
      case ReceiveRejected(e) => p.VClaim? && s.inq.active && e == BUSY
      case ReceiveFailed(e) => p.VTerminal?
      case ReceivedOk(m) => p == VRelease(m)
  }

  ghost predicate CallCounts(s: State, i: nat, ev: CallEvent, s': State) {
    && i < |s.callers| && i < |s'.callers|
    && SendCounts(s, ev, s.callers[i], s'.callers[i])
    && ReceiveCounts(s, ev, s.callers[i], s'.callers[i])
    && (s'.callers[i].CloseCancelled? ==> ev.Cancel?)
  }

  lemma AdmitCounts(s: State, i: nat, ev: CallEvent, s': State)
    requires i < |s.callers| && AdmitStep(s, i, ev, s') && Limits(s.cfg)
    requires s.callers[i].STerminal? ==> IsClosed(s.core)
    requires s.callers[i].SBytes? ==> s.callers[i].size <= s.cfg.maxMessageSize
    ensures CallCounts(s, i, ev, s')
  {
    match s.callers[i] { case SCheck(_) => case SBytes(_) => case SReserve(_) => case STerminal(_) => case _ => }
  }

  lemma SendingCounts(s: State, i: nat, ev: CallEvent, s': State)
    requires i < |s.callers| && SendStep(s, i, ev, s')
    ensures CallCounts(s, i, ev, s')
  {
    hide TerminalError;
    match s.callers[i] { case SAdmitted(_) => case SUnreserve(_) => case SWaiting => case _ => }
  }

  lemma ReceivingCounts(s: State, i: nat, ev: CallEvent, s': State)
    requires i < |s.callers| && (ClaimStep(s, i, ev, s') || ReceiveStep(s, i, ev, s'))
    ensures CallCounts(s, i, ev, s')
  {
    hide TerminalError;
    match s.callers[i] {
      case VClaim => case VLock => case VRecv => case VTerminal => case VRelease(_) => case VUnlock(_) => case _ =>
    }
  }

  lemma ClosingCounts(s: State, i: nat, ev: CallEvent, s': State)
    requires i < |s.callers| && CloseStep(s, i, ev, s')
    ensures CallCounts(s, i, ev, s')
  {
    match s.callers[i] { case CRead => case CCheck(_) => case CPark(_) => case CTasks(_, _) => case _ => }
  }

  lemma ControlCounts(s: State, i: nat, ev: CallEvent, s': State)
    requires i < |s.callers| && (BeginCloseStep(s, i, ev, s') || AborterStep(s, i, ev, s'))
    ensures CallCounts(s, i, ev, s')
  {
    hide PutState, PutSignal, PutCount, Less, BeginClose, SignalLocalClose, PublishTerminal;
    match s.callers[i] {
      case CGuard => case CSwap => case CBegin => case CSignal => case CTimer => case CSpawn => case CDropGuard =>
      case AStore(_) => case APublish(_) => case ASignal(_) => case AReader(_) => case AWriter(_) =>
      case ADropInbound => case _ =>
    }
  }

  lemma StepCounts(s: State, i: nat, ev: CallEvent, s': State)
    requires Next(s, CallerActs(i, ev), s') && Limits(s.cfg) && i < |s.callers|
    requires s.callers[i].STerminal? ==> IsClosed(s.core)
    requires s.callers[i].SBytes? ==> s.callers[i].size <= s.cfg.maxMessageSize
    ensures CallCounts(s, i, ev, s')
  {
    hide CloseStep, BeginCloseStep, AborterStep, AdmitStep, SendStep, ClaimStep, ReceiveStep, CallCounts;
    if AdmitStep(s, i, ev, s') {
      AdmitCounts(s, i, ev, s');
    } else if SendStep(s, i, ev, s') {
      SendingCounts(s, i, ev, s');
    } else if ClaimStep(s, i, ev, s') || ReceiveStep(s, i, ev, s') {
      ReceivingCounts(s, i, ev, s');
    } else if CloseStep(s, i, ev, s') {
      ClosingCounts(s, i, ev, s');
    } else {
      ControlCounts(s, i, ev, s');
    }
  }

  // ----- no message is larger than allowed -----

  ghost predicate FitsCall(max: nat, p: Caller) {
    p.SBytes? || p.SReserve? || p.STerminal? || p.SAdmitted? ==> p.size <= max
  }

  // Admissions, queued commands and the command in the writer's hands.
  ghost predicate Sized(s: State) {
    && (forall i :: 0 <= i < |s.callers| ==> FitsCall(s.cfg.maxMessageSize, s.callers[i]))
    && (forall k :: 0 <= k < |s.outq.queue| ==> s.outq.queue[k].size <= s.cfg.maxMessageSize)
    && (HeldBy(s.writer).Some? ==> HeldBy(s.writer).value.size <= s.cfg.maxMessageSize)
  }

  lemma SoundCalls(s: State)
    requires Sound(s)
    ensures Limits(s.cfg) && (s.inq.gone ==> IsClosed(s.core))
    ensures forall i :: 0 <= i < |s.callers| && s.callers[i].STerminal? ==> IsClosed(s.core)
    ensures Delivering(s) && CallsMatch(s.callers, FlowOf(s)) && FlowOk(FlowOf(s))
  {
    hide CoreOk, ReaderOk, WriterOk, DogsOk, RepliesOk, OutboundOk, Counting.Counted, Counting.OneWatchdog;
    hide Timers.Timed, Conserved, WireTimed, Settling.Owed, Settling.Settled, Receiving, CallsMatch, FlowOk;
    hide InboundBytes, Reading, HandsHoldLast, Exhausted, HandleGone;
    assert forall i :: 0 <= i < |s.callers| ==> CallerOk(s.core, s.callers[i]);
  }

  lemma WriterKeepsSizes(s: State, ev: WriterEvent, s': State)
    requires Next(s, WriterActs(ev), s') && Sized(s)
    ensures Sized(s')
  {
    hide WriterStep, WriterEffect, WriterEdge, Answered, FitsCall;
    WriterSummarized(s, ev, s');
    WriterWorksLane(s, ev, s');
    HeldMoves(s.core, s.writer, s'.writer);
    match s.writer {
      case WPollQueues => case WReplyOk(_) => case WReleaseOk(_) => case WReadSignal => case WReplyErr(_, _) =>
      case WDropCommand(_) => case WRelease(_) => case WShut => case WDrain => case _ =>
    }
  }

  lemma CallerKeepsSizes(s: State, i: nat, ev: CallEvent, s': State)
    requires Sound(s) && Next(s, CallerActs(i, ev), s') && Sized(s)
    ensures Sized(s')
  {
    hide CloseStep, BeginCloseStep, AborterStep, AdmitStep, SendStep, ClaimStep, ReceiveStep, Sound, Refuses;
    hide CallerEffect, ControlEdge, Controls, Sends, ReceiveCounts, Delivering, CallsMatch, FlowOk, Honest;
    SoundCalls(s);
    CallerSummarized(s, i, ev, s');
    StepCounts(s, i, ev, s');
    OtherCallsLeaveLane(s, i, ev, s');
    if AdmitStep(s, i, ev, s') || SendStep(s, i, ev, s') {
      SenderMovesFlow(s, i, ev, s');
    }
  }

  lemma StepKeepsSizes(s: State, a: Action, s': State)
    requires Sound(s) && Next(s, a, s') && Sized(s)
    ensures Sized(s')
  {
    hide ReaderStep, WriterStep, DogStep, ReaderEdge, ReaderEffect, DogEdge, DogEffect, Quiet, Sound;
    hide CloseStep, BeginCloseStep, AborterStep, AdmitStep, SendStep, ClaimStep, ReceiveStep;
    match a {
      case ReaderActs(ev) => ReaderSummarized(s, ev, s');
      case WriterActs(ev) => WriterKeepsSizes(s, ev, s');
      case DogActs(k, ev) => DogSummarized(s, k, ev, s');
      case CallerActs(i, ev) => CallerKeepsSizes(s, i, ev, s');
      case _ =>
    }
  }

  // Nothing larger than max_message_size is ever admitted, queued or in the
  // writer's hands.
  lemma {:induction false} NothingOversized(states: seq<State>, acts: seq<Action>, k: nat)
    requires Run(states, acts) && k < |states|
    ensures Sized(states[k])
  {
    hide Next, Sound;
    if k == 0 {
    } else {
      hide Init, Sized;
      NothingOversized(states, acts, k - 1);
      RunIsSound(states, acts, k - 1);
      StepKeepsSizes(states[k - 1], acts[k - 1], states[k]);
    }
  }

  // ----- why a call answers what it does -----

  ghost predicate SentBecause(states: seq<State>, acts: seq<Action>, k: nat, i: nat, sent: Sent)
    requires |states| == |acts| + 1 && k <= |acts|
  {
    match sent
    case SendRefused(e) => RefusedBy(states, acts, k, i, e)
    case SendCancelled => CancelledBy(acts, k, i)
    case _ => true
  }

  ghost predicate ReceivedBecause(states: seq<State>, acts: seq<Action>, k: nat, i: nat, r: Received)
    requires |states| == |acts| + 1 && k <= |acts|
  {
    match r
    case ReceiveCancelled => CancelledBy(acts, k, i)
    case ReceiveRejected(e) => e == BUSY && BusyBy(states, acts, k, i)
    case _ => true
  }

  ghost predicate CallTraced(states: seq<State>, acts: seq<Action>, k: nat, i: nat)
    requires |states| == |acts| + 1 && k <= |acts| && i < |states[k].callers|
  {
    match states[k].callers[i]
    case SRefund(_, e) => RefusedBy(states, acts, k, i, e)
    case SUnreserve(sent) => SentBecause(states, acts, k, i, sent) && (sent.SendRefused? || sent.SendCancelled?)
    case SendDone(sent) => SentBecause(states, acts, k, i, sent)
    case VUnlock(r) => ReceivedBecause(states, acts, k, i, r)
    case VUnclaim(r) => ReceivedBecause(states, acts, k, i, r)
    case ReceiveDone(r) => ReceivedBecause(states, acts, k, i, r)
    case CloseCancelled => CancelledBy(acts, k, i)
    case _ => true
  }

  lemma ReasonsLast(states: seq<State>, acts: seq<Action>, k: nat, i: nat)
    requires |states| == |acts| + 1 && k < |acts|
    ensures forall e :: RefusedBy(states, acts, k, i, e) || RefusesAt(states[k], acts[k], i, e) ==>
                        RefusedBy(states, acts, k + 1, i, e)
    ensures CancelledBy(acts, k, i) || acts[k] == CallerActs(i, Cancel) ==> CancelledBy(acts, k + 1, i)
    ensures BusyBy(states, acts, k, i) || BusyAt(states[k], acts[k], i) ==> BusyBy(states, acts, k + 1, i)
  {
    hide RefusesAt, BusyAt;
  }

  // With the flag set, another receive has the claim.
  lemma ClaimIsTaken(s: State, i: nat) returns (j: nat)
    requires Delivering(s) && i < |s.callers| && s.callers[i].VClaim? && s.inq.active
    ensures j < |s.callers| && j != i && Past(s.callers[j]) > 0
  {
    j := SomebodyIsPast(s);
  }

  lemma StepIsTraced(states: seq<State>, acts: seq<Action>, k: nat, i: nat)
    requires |states| == |acts| + 1 && k < |acts| && Next(states[k], acts[k], states[k + 1])
    requires Sound(states[k]) && Sound(states[k + 1]) && Sized(states[k]) && i < |states[k].callers|
    requires CallTraced(states, acts, k, i) && i < |states[k + 1].callers|
    ensures CallTraced(states, acts, k + 1, i)
  {
    hide Next, Sound, RefusedBy, CancelledBy, BusyBy, Refuses, Past;
    var s, a, s' := states[k], acts[k], states[k + 1];
    ReasonsLast(states, acts, k, i);
    Fairness.OnlyOwnSteps(s, Some(a), s');
    if a.CallerActs? && a.i == i {
      OwnStepIsTraced(states, acts, k, i);
    }
  }

  lemma OwnStepIsTraced(states: seq<State>, acts: seq<Action>, k: nat, i: nat)
    requires |states| == |acts| + 1 && k < |acts| && Next(states[k], acts[k], states[k + 1])
    requires acts[k].CallerActs? && acts[k].i == i && i < |states[k].callers| && i < |states[k + 1].callers|
    requires Sound(states[k]) && Sound(states[k + 1]) && Sized(states[k]) && CallTraced(states, acts, k, i)
    ensures CallTraced(states, acts, k + 1, i)
  {
    hide Next, Sound, RefusedBy, CancelledBy, BusyBy, BusyAt, Refuses, FlowOk, CallsMatch, Sized, Delivering;
    var s, ev, s' := states[k], acts[k].ce, states[k + 1];
    ReasonsLast(states, acts, k, i);
    SoundCalls(s);
    SizedCall(s, i);
    StepCounts(s, i, ev, s');
    match s'.callers[i] {
      case SRefund(_, e) => assert RefusesAt(s, acts[k], i, e);
      case SUnreserve(sent) =>
        if sent.SendRefused? {
          assert RefusesAt(s, acts[k], i, sent.error);
        }
      case SendDone(sent) =>
        if sent.SendRefused? {
          assert RefusedBy(states, acts, k, i, sent.error) || RefusesAt(s, acts[k], i, sent.error);
        }
      case VUnlock(r) => ReceiveIsTraced(states, acts, k, i, r);
      case VUnclaim(r) => ReceiveIsTraced(states, acts, k, i, r);
      case ReceiveDone(r) => ReceiveIsTraced(states, acts, k, i, r);
      case _ =>
    }
  }

  lemma ReceiveIsTraced(states: seq<State>, acts: seq<Action>, k: nat, i: nat, r: Received)
    requires |states| == |acts| + 1 && k < |acts| && Delivering(states[k])
    requires acts[k].CallerActs? && acts[k].i == i && i < |states[k].callers| && i < |states[k + 1].callers|
    requires ReceiveCounts(states[k], acts[k].ce, states[k].callers[i], states[k + 1].callers[i])
    requires CallTraced(states, acts, k, i) && Carried(states[k + 1].callers[i]) == Some(r)
    ensures ReceivedBecause(states, acts, k + 1, i, r)
  {
    hide RefusedBy, CancelledBy, BusyBy, RefusesAt, Delivering;
    ReasonsLast(states, acts, k, i);
    var s := states[k];
    if s.callers[i].VClaim? && s.inq.active {
      var j := ClaimIsTaken(s, i);
      assert BusyAt(s, acts[k], i);
    }
  }

  lemma SizedCall(s: State, i: nat)
    requires Sized(s) && i < |s.callers|
    ensures FitsCall(s.cfg.maxMessageSize, s.callers[i])
  {
  }

  lemma {:induction false} RunIsTraced(states: seq<State>, acts: seq<Action>, k: nat, i: nat)
    requires Run(states, acts) && k < |states| && i < |states[k].callers|
    ensures CallTraced(states, acts, k, i)
  {
    hide Next, Sound, Sized, CallTraced;
    if k == 0 {
    } else {
      hide Init;
      RunIsSound(states, acts, k - 1);
      RunIsSound(states, acts, k);
      NothingOversized(states, acts, k - 1);
      if i < |states[k - 1].callers| {
        RunIsTraced(states, acts, k - 1, i);
        StepIsTraced(states, acts, k - 1, i);
      } else {
        NewCallIsFresh(states[k - 1], acts[k - 1], states[k], i);
        FreshIsTraced(states, acts, k, i);
      }
    }
  }

  lemma NewCallIsFresh(s: State, a: Action, s': State, i: nat)
    requires Next(s, a, s') && |s.callers| <= i < |s'.callers|
    ensures CallerFresh(s'.callers[i]) || s'.callers[i] == AStore(true)
  {
    hide CloseStep, BeginCloseStep, AborterStep, AdmitStep, SendStep, ClaimStep, ReceiveStep, Quiet;
    hide ReaderStep, WriterStep, DogStep, ReaderEdge, WriterEdge, DogEdge, ControlEdge, Controls;
    hide ReaderEffect, WriterEffect, DogEffect, CallerEffect;
    match a {
      case ReaderActs(ev) => ReaderSummarized(s, ev, s');
      case WriterActs(ev) => WriterSummarized(s, ev, s');
      case DogActs(k, ev) => DogSummarized(s, k, ev, s');
      case CallerActs(j, ev) => CallerSummarized(s, j, ev, s');
      case _ =>
    }
  }

  lemma FreshIsTraced(states: seq<State>, acts: seq<Action>, k: nat, i: nat)
    requires |states| == |acts| + 1 && k <= |acts| && i < |states[k].callers|
    requires CallerFresh(states[k].callers[i]) || states[k].callers[i] == AStore(true)
    ensures CallTraced(states, acts, k, i)
  {
  }

  // ----- the answers -----

  // A send() that has ended was refused by a check and never queued, or was
  // cancelled, or answers what became of its message: Ok if and only if the
  // message is among those answered, and the final value of the connection
  // otherwise.
  lemma SendAnswersTruly(states: seq<State>, acts: seq<Action>, k: nat, i: nat)
    requires Run(states, acts) && k < |states| && i < |states[k].callers| && states[k].callers[i].SendDone?
    ensures var s, sent := states[k], states[k].callers[i].sent;
            && (i in s.log.queued && !CancelledBy(acts, k, i) ==>
                  && (sent == SentOk <==> i in s.log.answered)
                  && (i !in s.log.answered ==> sent.SendFailed? && s.core.state.value == Closed(sent.error)))
            && (sent == SentOk ==> i in s.log.answered)
            && (sent.SendFailed? ==> i in s.log.queued && i !in s.log.answered)
            && (sent.SendRefused? ==> i !in s.log.queued && RefusedBy(states, acts, k, i, sent.error))
            && (sent.SendCancelled? ==> CancelledBy(acts, k, i))
  {
    hide Init, Next, Sound, RefusedBy, CancelledBy, Delivering;
    RunIsSound(states, acts, k);
    RunIsTraced(states, acts, k, i);
    SoundCalls(states[k]);
    if states[k].callers[i].sent.SendFailed? {
      ReportsAreFinal(states[k], i);
    }
    MatchedSend(states[k], i);
  }

  lemma MatchedSend(s: State, i: nat)
    requires FlowOk(FlowOf(s)) && CallsMatch(s.callers, FlowOf(s)) && i < |s.callers| && s.callers[i].SendDone?
    ensures s.callers[i].sent.SentOk? ==> i in s.log.answered
    ensures s.callers[i].sent.SendRefused? ==> i !in s.log.queued
    ensures s.callers[i].sent.SendFailed? ==> i in s.log.queued && i !in s.log.answered
  {
  }

  // A receive() is refused only while another one has the claim, and neither a
  // receive() nor a close() ends as cancelled unless it was.
  lemma ReceiveAndCloseAnswerTruly(states: seq<State>, acts: seq<Action>, k: nat, i: nat)
    requires Run(states, acts) && k < |states| && i < |states[k].callers|
    ensures var p := states[k].callers[i];
            && (p.ReceiveDone? && p.received.ReceiveRejected? ==>
                  p.received.error == BUSY && BusyBy(states, acts, k, i))
            && (p.ReceiveDone? && p.received.ReceiveCancelled? ==> CancelledBy(acts, k, i))
            && (p.CloseCancelled? ==> CancelledBy(acts, k, i))
  {
    hide Init, Next, BusyBy, CancelledBy;
    RunIsTraced(states, acts, k, i);
  }

  // ----- an admission that nobody interrupts -----

  predicate Admitting(p: Caller) { p.SCheck? || p.SBytes? || p.SReserve? || p.STerminal? || p.SRefund? }

  // Call i alone takes steps, from one end of try_admit_outbound to the other.
  ghost predicate Alone(states: seq<State>, acts: seq<Action>, i: nat) {
    && |states| == |acts| + 1
    && (forall k :: 0 <= k < |states| ==> i < |states[k].callers|)
    && (forall k :: 0 <= k < |acts| ==>
          Admitting(states[k].callers[i]) && acts[k] == CallerActs(i, Go) && Next(states[k], acts[k], states[k + 1]))
  }

  // What refuses a send of this size, if anything does.
  ghost function AdmissionError(s: State, size: nat): Option<DriverError> {
    match s.core.state.value
    case Closing => Some(ClosedOk(LOCAL_NORMAL))
    case PeerClosed(outcome) => Some(outcome)
    case Closed(outcome) => Some(outcome)
    case Open =>
      if size > s.cfg.maxMessageSize then Some(TOO_LARGE)
      else if size > s.outq.free then Some(NO_BYTES)
      else if s.outq.reserved + |s.outq.queue| >= s.cfg.maxQueue then Some(NO_SLOT)
      else None
  }

  ghost predicate AdmissionAt(s: State, size: nat, t: State, p: Caller) {
    var error := AdmissionError(s, size);
    && t.core == s.core && t.cfg == s.cfg
    && (p.SCheck? ==> p.size == size && t.outq == s.outq)
    && (p.SBytes? ==> p.size == size && t.outq == s.outq && s.core.state.value.Open? && size <= s.cfg.maxMessageSize)
    && (p.SReserve? || p.SRefund? ==>
          && p.size == size && s.core.state.value.Open? && size <= s.cfg.maxMessageSize && size <= s.outq.free
          && t.outq == Acquire(s.outq, size))
    && (p.SRefund? ==> error == Some(p.error))
    && (p.SAdmitted? ==> p.size == size && error.None? && t.outq == Reserve(Acquire(s.outq, size)))
    && (p.SendDone? ==> error.Some? && p.sent == SendRefused(error.value) && t.outq == s.outq)
    && (p.SCheck? || p.SBytes? || p.SReserve? || p.SRefund? || p.SAdmitted? || p.SendDone?)
  }

  lemma AdmissionGoesOn(s: State, size: nat, t: State, i: nat, t': State)
    requires Limits(s.cfg) && !(s.outq.closed && s.core.state.value.Open?) && i < |t.callers| && i < |t'.callers|
    requires AdmissionAt(s, size, t, t.callers[i]) && Admitting(t.callers[i]) && AdmitStep(t, i, Go, t')
    ensures AdmissionAt(s, size, t', t'.callers[i])
  {
    match t.callers[i] { case SCheck(_) => case SBytes(_) => case SReserve(_) => case _ => }
  }

  lemma AdmittersAdmit(s: State, i: nat, s': State)
    requires Next(s, CallerActs(i, Go), s') && i < |s.callers| && Admitting(s.callers[i])
    ensures AdmitStep(s, i, Go, s')
  {
    hide AdmitStep;
  }

  lemma {:induction false} AdmissionInProgress(states: seq<State>, acts: seq<Action>, i: nat, size: nat, k: nat)
    requires Alone(states, acts, i) && Sound(states[0]) && states[0].callers[i] == SCheck(size) && k < |states|
    ensures AdmissionAt(states[0], size, states[k], states[k].callers[i])
  {
    hide Next, Sound;
    if k == 0 {
    } else {
      hide AdmissionAt;
      AdmissionInProgress(states, acts, i, size, k - 1);
      OpenLaneIsOpen(states[0]);
      AdmittersAdmit(states[k - 1], i, states[k]);
      AdmissionGoesOn(states[0], size, states[k - 1], i, states[k]);
    }
  }

  lemma OpenLaneIsOpen(s: State)
    requires Sound(s)
    ensures Limits(s.cfg) && !(s.outq.closed && s.core.state.value.Open?)
  {
    hide CoreOk, ReaderOk, DogsOk, CallersOk, RepliesOk, InboundOk, Counting.Counted, Counting.OneWatchdog;
    hide Timers.Timed, Conserved, Ordered, WireTimed, Delivering, Settling.Owed, Settling.Settled;
  }

  // An admission that nobody interrupts is granted if and only if the state is
  // Open, the message is no larger than allowed, its bytes are free and the
  // queue has room; it then holds exactly these. Otherwise the first check that
  // fails gives the error and both budgets are as they were.
  lemma AdmissionDecides(states: seq<State>, acts: seq<Action>, i: nat, size: nat)
    requires Alone(states, acts, i) && Sound(states[0]) && states[0].callers[i] == SCheck(size)
    requires !Admitting(states[|acts|].callers[i])
    ensures var s, t := states[0], states[|acts|];
            match AdmissionError(s, size)
            case None =>
              && t.callers[i] == SAdmitted(size) && size <= s.outq.free
              && t.outq == s.outq.(free := s.outq.free - size, reserved := s.outq.reserved + 1)
            case Some(e) => t.callers[i] == SendDone(SendRefused(e)) && t.outq == s.outq
  {
    hide Next, Sound;
    AdmissionInProgress(states, acts, i, size, |acts|);
  }
}
