// The outbound direction (src/driver.rs): bytes and items are conserved, sends
// are written and answered in queue order, and nothing follows a close frame.
module Outflow {
  import opened Errors
  import opened Cells
  import opened Lanes
  import opened Sums
  import opened Machine
  import opened Effects

  // Byte permits held by a send that is not queued.
  function BytesOf(p: Caller): nat {
    if p.SReserve? || p.STerminal? || p.SRefund? || p.SAdmitted? then p.size else 0
  }

  // Item permits held.
  function SlotOf(p: Caller): nat { if p.SAdmitted? || p.SUnreserve? then 1 else 0 }

  // The command the writer holds, with its byte permit.
  function HeldBy(w: Writer): Option<Command> {
    match w
    case WWrite(c) => Some(c)
    case WReplyOk(c) => Some(c)
    case WReleaseOk(c) => Some(c)
    case WFail(_, held) => held
    case WFailSignal(_, held) => held
    case WReplyErr(c, _) => Some(c)
    case WDropCommand(c) => Some(c)
    case WRelease(c) => Some(c)
    case _ => None
  }

  function HeldBytes(w: Writer): nat { if HeldBy(w).Some? then HeldBy(w).value.size else 0 }

  // A held command that has not been answered yet.
  function Unanswered(w: Writer): seq<nat> {
    if HeldBy(w).Some? && !w.WReleaseOk? && !w.WRelease? then [HeldBy(w).value.id] else []
  }

  function Ids(queue: seq<Command>): (ids: seq<nat>)
    ensures |ids| == |queue|
    ensures forall k :: 0 <= k < |ids| ==> ids[k] == queue[k].id
  {
    seq(|queue|, k requires 0 <= k < |queue| => queue[k].id)
  }

  // ----- conservation -----

  ghost predicate Conserved(s: State) {
    && s.outq.free + Sum(BytesOf, s.callers) + CommandBytes(s.outq.queue) + HeldBytes(s.writer)
       == s.cfg.maxBufferedBytes
    && s.outq.reserved == Sum(SlotOf, s.callers)
    && s.outq.reserved + |s.outq.queue| <= s.cfg.maxQueue
  }

  // What the writer does to the lane.
  ghost predicate WriterLane(s: State, s': State) {
    match s.writer
    case WPollQueues =>
      if s'.writer.WWrite?
      then s.outq.queue != [] && s'.writer.c == s.outq.queue[0] && s'.outq == Dequeue(s.outq)
           && s'.log == s.log.(wire := s.log.wire + [DataFrame(s.outq.queue[0].id)])
      else s'.outq == s.outq && s'.log == s.log
    case WReplyOk(c) =>
      && s'.outq == Answer(s.outq, c.id, Delivered)
      && s'.log == s.log.(answered := s.log.answered + [c.id],
                          lateAnswers := s.log.lateAnswers + if s.core.signal.value.Running? then 0 else 1)
    case WReleaseOk(c) => s'.outq == Release(s.outq, c.size) && s'.log == s.log
    case WReadSignal =>
      s'.outq == s.outq
      && s'.log == if s'.writer.WSendClose? then s.log.(wire := s.log.wire + [CloseFrameOut]) else s.log
    case WReplyErr(c, t) => s'.outq == Answer(s.outq, c.id, Refused(t)) && s'.log == s.log
    case WDropCommand(c) => s'.outq == Answer(s.outq, c.id, Dropped) && s'.log == s.log
    case WRelease(c) => s'.outq == Release(s.outq, c.size) && s'.log == s.log
    case WShut => s'.outq == Shut(s.outq) && s'.log == s.log
    case WDrain => s'.outq == (if s.outq.queue == [] then s.outq else DropHead(s.outq)) && s'.log == s.log
    case _ => s'.outq == s.outq && s'.log == s.log
  }

  lemma WriterWorksLane(s: State, ev: WriterEvent, s': State)
    requires WriterStep(s, ev, s')
    ensures WriterLane(s, s')
  {
    hide PutState, PutSignal, PutCount, Less, PublishWriterFailure, PublishTerminal, SignalAbort, FailureValue;
    if WriterServes(s, ev, s') {
      match s.writer {
        case WPoll => case WPollQueues => case WFlush => case WWrite(_) => case WReplyOk(_) => case _ =>
      }
    } else if WriterHeeds(s, ev, s') {
      match s.writer { case WReadSignal => case WReadPeer => case _ => }
    } else if CloseWriter(s, ev, s') {
      match s.writer { case WSendClose => case WHandshake => case WHandshakePark => case WHandshakeEnd => case _ => }
    } else if WriterLeaves(s, ev, s') {
      match s.writer {
        case WFail(_, _) => case WFailSignal(_, _) => case WReplyErr(_, _) => case WDropCommand(_) =>
        case WRelease(_) =>
        case WShut => case WDrain => case WDropTransport => case _ =>
      }
    }
  }

  // The writer keeps a command from taking it to releasing its permit.
  lemma HeldMoves(c: Core, w: Writer, w': Writer)
    requires WriterEdge(c, w, w')
    ensures HeldBy(w') == if w.WPollQueues? && w'.WWrite? then Some(w'.c)
                          else if w.WReleaseOk? || w.WRelease? then None
                          else HeldBy(w)
  {
    match w {
      case WPoll => case WPollQueues => case WFlush => case WWrite(_) => case WReadSignal => case WSendClose =>
      case WHandshake => case WHandshakePark => case WHandshakeEnd => case WCloseFlush => case WReadPeer =>
      case WFailSignal(_, _) => case WDrain => case _ =>
    }
  }

  lemma WriterConserves(s: State, ev: WriterEvent, s': State)
    requires WriterStep(s, ev, s') && Conserved(s)
    ensures Conserved(s')
  {
    hide WriterStep, WriterEffect, WriterEdge, Answered, BytesOf, SlotOf, Sum;
    WriterSummarized(s, ev, s');
    WriterWorksLane(s, ev, s');
    HeldMoves(s.core, s.writer, s'.writer);
    if s.outq.queue != [] {
      SumHead(CommandSize, s.outq.queue);
    }
    match s.writer {
      case WPollQueues => case WReplyOk(_) => case WReleaseOk(_) => case WReadSignal => case WReplyErr(_, _) =>
      case WDropCommand(_) => case WRelease(_) => case WShut => case WDrain => case _ =>
    }
  }

  // A send hands bytes and items on without losing any.
  ghost predicate Balanced(s: State, i: nat, s': State) {
    && i < |s.callers| && i < |s'.callers|
    && s'.outq.free + BytesOf(s'.callers[i]) + CommandBytes(s'.outq.queue)
       == s.outq.free + BytesOf(s.callers[i]) + CommandBytes(s.outq.queue)
    && s'.outq.reserved + SlotOf(s.callers[i]) == s.outq.reserved + SlotOf(s'.callers[i])
    && s'.outq.reserved + |s'.outq.queue| <= s.cfg.maxQueue
  }

  lemma AdmitBalances(s: State, i: nat, ev: CallEvent, s': State)
    requires i < |s.callers| && AdmitStep(s, i, ev, s') && s.outq.reserved + |s.outq.queue| <= s.cfg.maxQueue
    ensures Balanced(s, i, s')
  {
    hide TerminalError, Sum;
    match s.callers[i] { case SCheck(_) => case SBytes(_) => case SReserve(_) => case STerminal(_) => case _ => }
  }

  lemma SendBalances(s: State, i: nat, ev: CallEvent, s': State)
    requires i < |s.callers| && SendStep(s, i, ev, s') && s.outq.reserved + |s.outq.queue| <= s.cfg.maxQueue
    ensures Balanced(s, i, s')
  {
    hide TerminalError, Sum;
    match s.callers[i] {
      case SAdmitted(size) => SumAppend(CommandSize, s.outq.queue, Command(i, size));
      case SUnreserve(_) => case SWaiting => case _ =>
    }
  }

  // Neither kind of call holds anything of this lane.
  lemma NoSendNoHold(p: Caller)
    requires Controls(p) || Receives(p)
    ensures BytesOf(p) == 0 && SlotOf(p) == 0 && !Sends(p)
  {
  }

  lemma ControlStaysControl(c: Core, p: Caller, p': Caller)
    requires ControlEdge(c, p, p')
    ensures Controls(p')
  {
  }

  lemma ReceiveStaysReceive(s: State, i: nat, ev: CallEvent, s': State)
    requires i < |s.callers| && (ClaimStep(s, i, ev, s') || ReceiveStep(s, i, ev, s'))
    ensures i < |s'.callers| && Receives(s.callers[i]) && Receives(s'.callers[i])
  {
  }

  // A step of a call that is not a send leaves queue, bytes and items alone.
  lemma OtherCallsLeaveLane(s: State, i: nat, ev: CallEvent, s': State)
    requires Next(s, CallerActs(i, ev), s')
    ensures i < |s.callers| && i < |s'.callers|
    ensures AdmitStep(s, i, ev, s') || SendStep(s, i, ev, s')
            || (s'.outq == s.outq.(abandoned := s'.outq.abandoned) && !Sends(s.callers[i]) && !Sends(s'.callers[i])
                && BytesOf(s.callers[i]) == 0 == BytesOf(s'.callers[i])
                   && SlotOf(s.callers[i]) == 0 == SlotOf(s'.callers[i])
                && s'.log == s.log.(popped := s'.log.popped, returned := s'.log.returned))
  {
    hide CloseStep, BeginCloseStep, AborterStep, AdmitStep, SendStep, ClaimStep, ReceiveStep;
    hide CallerEffect, ControlEdge, Controls, BytesOf, SlotOf, Sends, Receives;
    CallerSummarized(s, i, ev, s');
    if AdmitStep(s, i, ev, s') || SendStep(s, i, ev, s') {
    } else if ClaimStep(s, i, ev, s') || ReceiveStep(s, i, ev, s') {
      ReceiveStaysReceive(s, i, ev, s');
      NoSendNoHold(s.callers[i]);
      NoSendNoHold(s'.callers[i]);
      ReceiveLeavesOutbound(s, i, ev, s');
    } else {
      ControlLeavesOutbound(s, i, ev, s');
      ControlStaysControl(s.core, s.callers[i], s'.callers[i]);
      NoSendNoHold(s.callers[i]);
      NoSendNoHold(s'.callers[i]);
    }
  }

  lemma ReceiveLeavesOutbound(s: State, i: nat, ev: CallEvent, s': State)
    requires i < |s.callers| && (ClaimStep(s, i, ev, s') || ReceiveStep(s, i, ev, s'))
    ensures s'.outq == s.outq && s'.log == s.log.(popped := s'.log.popped, returned := s'.log.returned)
  {
  }

  lemma ControlLeavesOutbound(s: State, i: nat, ev: CallEvent, s': State)
    requires i < |s.callers| && (CloseStep(s, i, ev, s') || BeginCloseStep(s, i, ev, s') || AborterStep(s, i, ev, s'))
    ensures Controls(s.callers[i]) && s'.outq == s.outq.(abandoned := s'.outq.abandoned) && s'.log == s.log
  {
  }

  lemma CallerConserves(s: State, i: nat, ev: CallEvent, s': State)
    requires Next(s, CallerActs(i, ev), s') && Conserved(s)
    ensures Conserved(s')
  {
    hide CloseStep, BeginCloseStep, AborterStep, AdmitStep, SendStep, ClaimStep, ReceiveStep;
    hide CallerEffect, ControlEdge, Controls, BytesOf, SlotOf, Sends, Sum;
    CallerSummarized(s, i, ev, s');
    SumUpdate(BytesOf, s.callers, i, s'.callers[i]);
    SumUpdate(SlotOf, s.callers, i, s'.callers[i]);
    OtherCallsLeaveLane(s, i, ev, s');
    if AdmitStep(s, i, ev, s') {
      AdmitBalances(s, i, ev, s');
    } else if SendStep(s, i, ev, s') {
      SendBalances(s, i, ev, s');
    }
  }

  lemma AmbientConserves(s: State, a: Action, s': State)
    requires (Starts(s, a, s') || Ambient(s, a, s')) && Conserved(s)
    ensures Conserved(s')
  {
    hide Quiet;
    if Starts(s, a, s') {
      SumAppend(BytesOf, s.callers, s'.callers[|s.callers|]);
      SumAppend(SlotOf, s.callers, s'.callers[|s.callers|]);
    } else if a.StrandedDrops? {
      SumRemove(CommandSize, s.outq.queue, a.at);
    }
  }

  // Free bytes plus bytes held by admissions, queued commands and the command
  // in the writer are the budget; reserved plus queued items fit the queue.
  lemma StepConserves(s: State, a: Action, s': State)
    requires Next(s, a, s') && Conserved(s)
    ensures Conserved(s')
  {
    hide ReaderStep, WriterStep, DogStep, Starts, Ambient, ReaderEdge, ReaderEffect, DogEdge, DogEffect;
    hide CloseStep, BeginCloseStep, AborterStep, AdmitStep, SendStep, ClaimStep, ReceiveStep;
    match a {
      case ReaderActs(ev) => ReaderSummarized(s, ev, s');
      case WriterActs(ev) => WriterConserves(s, ev, s');
      case DogActs(k, ev) => DogSummarized(s, k, ev, s');
      case CallerActs(i, ev) => CallerConserves(s, i, ev, s');
      case _ => AmbientConserves(s, a, s');
    }
  }

  // At most max_queue + 1 admissions are unanswered at any time.
  lemma FewUnanswered(s: State)
    requires Conserved(s)
    ensures Sum(SlotOf, s.callers) + |s.outq.queue| + |Unanswered(s.writer)| <= s.cfg.maxQueue + 1
  {
  }

  // Whoever has an admission to use or to give back finds its item permit there.
  lemma AdmissionKeepsItsSlot(s: State, i: nat)
    requires Conserved(s) && i < |s.callers| && (s.callers[i].SAdmitted? || s.callers[i].SUnreserve?)
    ensures s.outq.reserved > 0
  {
    SumIsPositive(SlotOf, s.callers);
    assert SlotOf(s.callers[i]) > 0;
  }
}
