// The inbound direction (src/driver.rs, queue_inbound and receive): byte
// permits are conserved, what receives return is in order a prefix of what was
// read off the wire, and back-pressure cannot deadlock.
module Inflow {
  import opened Config
  import opened Lanes
  import opened Sums
  import opened Machine
  import opened Effects
  import opened Assertions
  import opened Outflow
  import opened SendOrder

  // The message in the reader's hands, and the permit it holds for it.
  function ReaderHand(r: Reader): seq<InboundMessage> {
    if r.RGate? || r.RAcquire? || r.REnqueue? then [r.m] else []
  }

  function ReaderPermit(r: Reader): nat { if r.REnqueue? then SizeOf(r.m) else 0 }

  // Bytes of a message that a receive has taken but not released.
  function TakenBytes(p: Caller): nat { if p.VRelease? then SizeOf(p.m) else 0 }

  // A receive in progress is in one of four situations: holding the mutex or
  // not, with a message in hand or not.
  function OutIdle(p: Caller): nat { if p.VLock? || (p.VUnclaim? && !p.received.ReceivedOk?) then 1 else 0 }

  function OutHand(p: Caller): nat { if p.VUnclaim? && p.received.ReceivedOk? then 1 else 0 }

  function InIdle(p: Caller): nat {
    if p.VRecv? || p.VTerminal? || (p.VUnlock? && !p.received.ReceivedOk?) then 1 else 0
  }

  function InHand(p: Caller): nat { if p.VRelease? || (p.VUnlock? && p.received.ReceivedOk?) then 1 else 0 }

  function Handed(p: Caller): nat { if p.ReceiveDone? && p.received.ReceivedOk? then 1 else 0 }

  function InTheHand(p: Caller): seq<InboundMessage> {
    if p.VRelease? then [p.m]
    else if (p.VUnlock? || p.VUnclaim?) && p.received.ReceivedOk? then [p.received.m]
    else []
  }

  // ----- the reader's side -----

  ghost predicate InboundBytes(s: State) {
    s.inq.free + MessageBytes(s.inq.queue) + ReaderPermit(s.reader) + Sum(TakenBytes, s.callers)
    == s.cfg.maxBufferedBytes
  }

  ghost predicate Reading(s: State) {
    && |s.inq.queue| <= s.cfg.maxQueue
    && (forall m :: m in ReaderHand(s.reader) ==> SizeOf(m) <= s.cfg.maxMessageSize)
    && s.log.kept <= s.log.taken
    && (!s.log.discarding ==> s.log.taken == s.log.kept + ReaderHand(s.reader))
    && (s.log.discarding ==> !s.core.signal.value.Running? && !s.reader.RAcquire? && !s.reader.REnqueue?)
    && (if s.inq.gone then s.inq.queue == [] && s.log.popped <= s.log.kept
        else s.log.kept == s.log.popped + s.inq.queue)
  }

  // What the reader does to the lane.
  ghost predicate ReaderLane(s: State, s': State) {
    match s.reader
    case RSelect =>
      && s'.inq == s.inq
      && if s'.reader.RGate?
         then SizeOf(s'.reader.m) <= s.cfg.maxMessageSize && s'.log == s.log.(taken := s.log.taken + [s'.reader.m])
         else s'.log == s.log
    case RGate(m) =>
      && s'.inq == s.inq
      && (if s'.reader.RAcquire? then s'.reader.m == m && s.core.signal.value.Running? && s'.log == s.log
          else s'.log == s.log.(discarding := true) && (SizeOf(m) > U32_MAX || !s.core.signal.value.Running?))
    case RAcquire(m) =>
      if s'.reader.REnqueue?
      then s'.reader.m == m && SizeOf(m) <= s.inq.free && s'.inq == AcquireIn(s.inq, SizeOf(m)) && s'.log == s.log
      else
        && s'.inq == s.inq && s'.log == s.log.(discarding := true)
        && (s.readerSeen < s.core.signal.version || s.core.readerAbort)
    case REnqueue(m) =>
      || (s'.reader.RTop? && !s.inq.gone && |s.inq.queue| < s.cfg.maxQueue && s'.inq == EnqueueIn(s.inq, m)
          && s'.log == s.log.(kept := s.log.kept + [m]))
      || (s'.inq == ReleaseIn(s.inq, SizeOf(m)) && s'.log == s.log.(discarding := true)
          && (s.inq.gone || s.readerSeen < s.core.signal.version || s.core.readerAbort))
    case RDropInbound => s'.inq == s.inq.(closed := true) && s'.log == s.log
    case _ => s'.inq == s.inq && s'.log == s.log
  }

  lemma ReaderWorksLane(s: State, ev: ReaderEvent, s': State)
    requires ReaderStep(s, ev, s')
    ensures ReaderLane(s, s')
    ensures ReaderHand(s'.reader) == (if s.reader.RSelect? && s'.reader.RGate? then [s'.reader.m]
                                      else if s'.reader.RAcquire? || s'.reader.REnqueue?
                                      then ReaderHand(s.reader)
                                      else [])
    ensures s'.reader.RAcquire? ==> s.reader.RGate?
    ensures s'.reader.REnqueue? ==> s.reader.RAcquire?
  {
    if ReaderReads(s, ev, s') {
      match s.reader { case RSelect => case RTop => case _ => }
    } else if QueueInbound(s, ev, s') {
      match s.reader { case RGate(_) => case RAcquire(_) => case _ => }
    } else if ReaderJudges(s, ev, s') {
      match s.reader { case RLoadClosing(_) => case RStoreClosing(_, _) => case _ => }
    } else if FinishPeerClose(s, ev, s') {
      match s.reader { case RPublishPeer(_) => case RSignalPeer(_) => case _ => }
    } else if ReaderWaits(s, ev, s') {
      match s.reader { case RWaitCheck(_, _, _) => case RWaitPark(_, _, _) => case RLateTerminal(_) => case _ => }
    } else if FinishReaderFailure(s, ev, s') {
      match s.reader { case RPublishFailure(_) => case RSignalFailure => case _ => }
    } else if ReaderDrops(s, ev, s') {
      match s.reader { case RDropControl => case RDropInbound => case _ => }
    }
  }

  lemma ReaderKeepsReading(s: State, ev: ReaderEvent, s': State)
    requires ReaderStep(s, ev, s') && Asserted(s) && Reading(s) && InboundBytes(s)
    ensures Reading(s') && InboundBytes(s')
  {
    hide ReaderStep, ReaderEffect, ReaderEdge, WriterOk, DogsOk, CallersOk, RepliesOk, OutboundOk, TakenBytes;
    hide ReaderOk, Sum;
    ReaderSummarized(s, ev, s');
    ReaderWorksLane(s, ev, s');
    StepKeepsSignal(s, ev, s');
    if s.reader.REnqueue? {
      SumAppend(SizeOf, s.inq.queue, s.reader.m);
    }
    match s.reader {
      case RSelect => case RGate(_) => case RAcquire(_) => case REnqueue(_) => case RDropInbound => case _ =>
    }
  }

  // The signal never returns to Running.
  lemma StepKeepsSignal(s: State, ev: ReaderEvent, s': State)
    requires ReaderStep(s, ev, s') && Asserted(s)
    ensures !s.core.signal.value.Running? ==> !s'.core.signal.value.Running?
    ensures s.core.readerAbort || s.inq.gone || s.readerSeen < s.core.signal.version ==> !s.core.signal.value.Running?
  {
    hide ReaderStep, WriterOk, DogsOk, CallersOk, RepliesOk, OutboundOk;
    ReaderKeepsAssertions(s, ev, s');
  }

  // ----- the receiving side -----

  function Situations(callers: seq<Caller>): nat {
    Sum(OutIdle, callers) + Sum(OutHand, callers) + Sum(InIdle, callers) + Sum(InHand, callers)
  }

  // One receive at a time is past its claim, it alone holds the mutex, and the
  // message it has taken is the last one taken.
  ghost predicate Receiving(s: State) {
    && Situations(s.callers) == (if s.inq.active then 1 else 0)
    && Sum(InIdle, s.callers) + Sum(InHand, s.callers) == (if s.inq.locked then 1 else 0)
    && s.log.returned <= s.log.popped
    && |s.log.popped| == |s.log.returned| + Sum(OutHand, s.callers) + Sum(InHand, s.callers)
    && |s.log.returned| == Sum(Handed, s.callers)
  }

  ghost predicate HandsHoldLast(s: State) {
    forall i :: 0 <= i < |s.callers| ==> HoldsLast(s.callers[i], s.log.popped)
  }

  ghost predicate HoldsLast(p: Caller, popped: seq<InboundMessage>) {
    InTheHand(p) != [] ==> popped != [] && InTheHand(p) == [popped[|popped| - 1]]
  }

  ghost predicate FailedReceive(p: Caller) {
    p.VTerminal? || ((p.VUnlock? || p.VUnclaim? || p.ReceiveDone?) && p.received.ReceiveFailed?)
  }

  // A receive fails only when nothing enqueued is left undelivered.
  ghost predicate Exhausted(s: State) {
    (exists i :: 0 <= i < |s.callers| && FailedReceive(s.callers[i])) ==>
      s.inq.closed && s.inq.queue == [] && s.log.popped == s.log.kept
  }

  lemma ReceiverSums(callers: seq<Caller>, i: nat, p: Caller)
    requires i < |callers|
    ensures Sum(OutIdle, callers[i := p]) + OutIdle(callers[i]) == Sum(OutIdle, callers) + OutIdle(p)
    ensures Sum(OutHand, callers[i := p]) + OutHand(callers[i]) == Sum(OutHand, callers) + OutHand(p)
    ensures Sum(InIdle, callers[i := p]) + InIdle(callers[i]) == Sum(InIdle, callers) + InIdle(p)
    ensures Sum(InHand, callers[i := p]) + InHand(callers[i]) == Sum(InHand, callers) + InHand(p)
    ensures Sum(Handed, callers[i := p]) + Handed(callers[i]) == Sum(Handed, callers) + Handed(p)
    ensures Sum(TakenBytes, callers[i := p]) + TakenBytes(callers[i]) == Sum(TakenBytes, callers) + TakenBytes(p)
    ensures OutIdle(callers[i]) <= Sum(OutIdle, callers) && OutHand(callers[i]) <= Sum(OutHand, callers)
    ensures InIdle(callers[i]) <= Sum(InIdle, callers) && InHand(callers[i]) <= Sum(InHand, callers)
  {
    SumUpdate(OutIdle, callers, i, p);
    SumUpdate(OutHand, callers, i, p);
    SumUpdate(InIdle, callers, i, p);
    SumUpdate(InHand, callers, i, p);
    SumUpdate(Handed, callers, i, p);
    SumUpdate(TakenBytes, callers, i, p);
  }

  // Where a receive stands, and what its step does to the lane.
  ghost predicate ReceiverLane(p: Caller, n: Inbound, l: Log, p': Caller, n': Inbound, l': Log) {
    match p
    case VClaim =>
      l' == l && if n.active then n' == n && p' == ReceiveDone(ReceiveRejected(BUSY))
                 else n' == n.(active := true) && p'.VLock?
    case VLock =>
      l' == l && ((n' == n.(locked := true) && !n.locked && p'.VRecv?) || (n' == n && p' == VUnclaim(ReceiveCancelled)))
    case VRecv =>
      || (n.queue != [] && n' == DequeueIn(n) && p' == VRelease(n.queue[0])
         && l' == l.(popped := l.popped + [n.queue[0]]))
      || (n.queue == [] && n.closed && n' == n && l' == l && p'.VTerminal?)
      || (n' == n && l' == l && p' == VUnlock(ReceiveCancelled))
    case VTerminal => n' == n && l' == l && p'.VUnlock? && p'.received.ReceiveFailed?
    case VRelease(m) => n' == ReleaseIn(n, SizeOf(m)) && l' == l && p' == VUnlock(ReceivedOk(m))
    case VUnlock(r) => n' == n.(locked := false) && l' == l && p' == VUnclaim(r)
    case VUnclaim(r) =>
      && n' == n.(active := false) && p' == ReceiveDone(r)
      && l' == if r.ReceivedOk? then l.(returned := l.returned + [r.m]) else l
    case _ => false
  }

  ghost predicate ReceiverActs(s: State, i: nat, s': State) {
    && i < |s.callers| && i < |s'.callers| && s'.callers == s.callers[i := s'.callers[i]]
    && ReceiverLane(s.callers[i], s.inq, s.log, s'.callers[i], s'.inq, s'.log)
    && s'.cfg == s.cfg && s'.reader == s.reader && s'.core == s.core
  }

  lemma ReceiverWorksLane(s: State, i: nat, ev: CallEvent, s': State)
    requires i < |s.callers| && (ClaimStep(s, i, ev, s') || ReceiveStep(s, i, ev, s'))
    ensures ReceiverActs(s, i, s')
  {
  }

  function Past(p: Caller): nat { OutIdle(p) + OutHand(p) + InIdle(p) + InHand(p) }

  // A step moves a receive between the four situations as it takes and leaves
  // the flag, the mutex and the message.
  lemma ReceiverTurns(p: Caller, n: Inbound, l: Log, p': Caller, n': Inbound, l': Log)
    requires ReceiverLane(p, n, l, p', n', l')
    ensures Past(p) > 0 && n.active ==> (n'.active <==> Past(p') > 0)
    ensures Past(p) == 0 ==> n'.active && (Past(p') > 0 <==> !n.active)
    ensures Past(p) <= 1 && Past(p') <= 1
    ensures InIdle(p) + InHand(p) > 0 && n.locked ==> (n'.locked <==> InIdle(p') + InHand(p') > 0)
    ensures InIdle(p) + InHand(p) == 0 ==>
              if InIdle(p') + InHand(p') > 0 then !n.locked && n'.locked else n'.locked == n.locked
    ensures |l'.popped| + |l.returned| + OutHand(p) + InHand(p) == |l.popped| + |l'.returned| + OutHand(p') + InHand(p')
    ensures |l'.returned| + Handed(p) == |l.returned| + Handed(p')
    ensures HoldsLast(p, l.popped) && l.returned <= l.popped && |l.popped| == |l.returned| + OutHand(p) + InHand(p) ==>
              l'.returned <= l'.popped
    ensures HoldsLast(p, l.popped) ==> HoldsLast(p', l'.popped)
    ensures l'.popped == l.popped || InIdle(p) > 0
    ensures Past(p) == 0 ==> l' == l
  {
    match p {
      case VClaim => case VLock => case VRecv => case VTerminal => case VRelease(_) => case VUnlock(_) => case _ =>
    }
  }

  // With one receive past its claim, nobody else has a message in hand.
  lemma NobodyElse(s: State, i: nat, j: nat)
    requires i < |s.callers| && j < |s.callers| && i != j && Receiving(s)
    requires OutIdle(s.callers[i]) + OutHand(s.callers[i]) + InIdle(s.callers[i]) + InHand(s.callers[i]) > 0
    ensures InTheHand(s.callers[j]) == []
  {
    if InTheHand(s.callers[j]) != [] {
      var others := s.callers[i := VClaim];
      ReceiverSums(s.callers, i, VClaim);
      ReceiverSums(others, j, VClaim);
    }
  }

  lemma ReceiverCounts(s: State, i: nat, s': State)
    requires ReceiverActs(s, i, s') && Receiving(s) && HoldsLast(s.callers[i], s.log.popped)
    ensures Receiving(s')
  {
    hide ReceiverLane, OutIdle, OutHand, InIdle, InHand, Handed, HoldsLast, Sum;
    ReceiverTurns(s.callers[i], s.inq, s.log, s'.callers[i], s'.inq, s'.log);
    ReceiverSums(s.callers, i, s'.callers[i]);
  }

  lemma ReceiverHolds(s: State, i: nat, s': State)
    requires ReceiverActs(s, i, s') && Receiving(s) && HandsHoldLast(s)
    ensures HandsHoldLast(s')
  {
    hide ReceiverLane, Receiving, OutIdle, OutHand, InIdle, InHand, Handed;
    ReceiverTurns(s.callers[i], s.inq, s.log, s'.callers[i], s'.inq, s'.log);
    forall j | 0 <= j < |s.callers| ensures HoldsLast(s'.callers[j], s'.log.popped) {
      assert HoldsLast(s.callers[j], s.log.popped);
      if j != i && s'.log.popped != s.log.popped {
        NobodyElse(s, i, j);
      }
    }
  }

  lemma ReceiverKeepsBytes(s: State, i: nat, s': State)
    requires ReceiverActs(s, i, s') && InboundBytes(s)
    ensures InboundBytes(s')
  {
    hide ReceiverLane, OutIdle, OutHand, InIdle, InHand, Handed, TakenBytes;
    ReceiverBalance(s.callers[i], s.inq, s.log, s'.callers[i], s'.inq, s'.log);
    ReceiverSums(s.callers, i, s'.callers[i]);
  }

  lemma ReceiverBalance(p: Caller, n: Inbound, l: Log, p': Caller, n': Inbound, l': Log)
    requires ReceiverLane(p, n, l, p', n', l')
    ensures n'.free + MessageBytes(n'.queue) + TakenBytes(p') == n.free + MessageBytes(n.queue) + TakenBytes(p)
    ensures n'.closed == n.closed && n'.gone == n.gone
    ensures (n'.queue == n.queue && l'.popped == l.popped)
            || (n.queue != [] && n'.queue == n.queue[1..] && l'.popped == l.popped + [n.queue[0]])
    ensures l' == l.(popped := l'.popped, returned := l'.returned)
    ensures FailedReceive(p') ==> FailedReceive(p) || (p.VRecv? && n.queue == [] && n.closed)
  {
    hide Sum;
    if n.queue != [] {
      SumHead(SizeOf, n.queue);
    }
    match p {
      case VClaim => case VLock => case VRecv => case VTerminal => case VRelease(_) => case VUnlock(_) => case _ =>
    }
  }

  lemma ReceiverKeepsReading(s: State, i: nat, s': State)
    requires ReceiverActs(s, i, s') && Reading(s)
    ensures Reading(s')
  {
    hide ReceiverLane;
    ReceiverBalance(s.callers[i], s.inq, s.log, s'.callers[i], s'.inq, s'.log);
  }

  lemma ReceiverExhausts(s: State, i: nat, s': State)
    requires ReceiverActs(s, i, s') && Reading(s) && Exhausted(s)
    requires s.inq.gone ==> !Receives(s.callers[i])
    ensures Exhausted(s')
  {
  }

  // Once the last handle is gone only Drop itself is at work.
  ghost predicate HandleGone(s: State) {
    !s.core.handle ==> forall i :: 0 <= i < |s.callers| ==> CallerFinished(s.callers[i]) || Aborts(s.callers[i])
  }

  ghost predicate Delivering(s: State) {
    InboundBytes(s) && Reading(s) && Receiving(s) && HandsHoldLast(s) && Exhausted(s) && HandleGone(s)
  }

  // ----- calls of the other kinds -----

  lemma NoReceiveNoHold(p: Caller)
    requires !Receives(p)
    ensures TakenBytes(p) == 0 && OutIdle(p) == 0 && OutHand(p) == 0 && InIdle(p) == 0
    ensures InHand(p) == 0 && Handed(p) == 0
    ensures InTheHand(p) == [] && !FailedReceive(p)
  {
  }

  lemma OtherCallsLeaveInbound(s: State, i: nat, ev: CallEvent, s': State)
    requires Next(s, CallerActs(i, ev), s')
    ensures i < |s.callers| && i < |s'.callers|
    ensures ClaimStep(s, i, ev, s') || ReceiveStep(s, i, ev, s')
            || (!Receives(s.callers[i]) && !Receives(s'.callers[i])
                && s'.inq == (if s.callers[i].ADropInbound? then Forsake(s.inq) else s.inq)
                && s'.log == s.log.(queued := s'.log.queued))
  {
    hide CloseStep, BeginCloseStep, AborterStep, AdmitStep, SendStep, ClaimStep, ReceiveStep;
    hide CallerEffect, ControlEdge, Controls, Sends, Receives;
    CallerSummarized(s, i, ev, s');
    if AdmitStep(s, i, ev, s') || SendStep(s, i, ev, s') {
      SenderMovesFlow(s, i, ev, s');
      NotReceiving(s.callers[i]);
      NotReceiving(s'.callers[i]);
      if AdmitStep(s, i, ev, s') {
        AdmitSummary(s, i, ev, s');
      } else {
        SendSummary(s, i, ev, s');
        SendLogs(s, i, ev, s');
      }
    } else if ClaimStep(s, i, ev, s') || ReceiveStep(s, i, ev, s') {
    } else {
      ControlLeavesOutbound(s, i, ev, s');
      ControlStaysControl(s.core, s.callers[i], s'.callers[i]);
      NotReceiving(s.callers[i]);
      NotReceiving(s'.callers[i]);
      ControlLeavesInbound(s, i, ev, s');
    }
  }

  lemma NotReceiving(p: Caller)
    requires Controls(p) || Sends(p)
    ensures !Receives(p) && (Sends(p) ==> !p.ADropInbound?)
  {
  }

  lemma ControlLeavesInbound(s: State, i: nat, ev: CallEvent, s': State)
    requires i < |s.callers| && (CloseStep(s, i, ev, s') || BeginCloseStep(s, i, ev, s') || AborterStep(s, i, ev, s'))
    ensures s'.inq == if s.callers[i].ADropInbound? then Forsake(s.inq) else s.inq
  {
  }

  // The sums and the exhaustion are blind to every other kind of call.
  lemma OthersKeepDelivering(s: State, i: nat, s': State)
    requires CallerSummary(s, i, s') && Delivering(s) && !Receives(s.callers[i]) && !Receives(s'.callers[i])
    requires s'.inq == if s.callers[i].ADropInbound? then Forsake(s.inq) else s.inq
    requires s'.log == s.log.(queued := s'.log.queued)
    requires !s.core.signal.value.Running? ==> !s'.core.signal.value.Running?
    ensures InboundBytes(s') && Reading(s') && Receiving(s')
  {
    hide CallerEffect, ControlEdge, Controls, HandsHoldLast, Exhausted, HandleGone, Receives;
    hide TakenBytes, OutIdle, OutHand, InIdle, InHand, Handed, ReaderHand, ReaderPermit;
    NoReceiveNoHold(s.callers[i]);
    NoReceiveNoHold(s'.callers[i]);
    ReceiverSums(s.callers, i, s'.callers[i]);
    assert MessageBytes([]) == 0;
  }

  lemma OthersKeepHands(s: State, i: nat, s': State)
    requires CallerSummary(s, i, s') && HandsHoldLast(s) && Exhausted(s) && Reading(s)
    requires !Receives(s.callers[i]) && !Receives(s'.callers[i])
    requires s'.inq == if s.callers[i].ADropInbound? then Forsake(s.inq) else s.inq
    requires s'.log == s.log.(queued := s'.log.queued)
    ensures HandsHoldLast(s') && Exhausted(s')
  {
  }

  lemma CallersKeepHandle(s: State, i: nat, ev: CallEvent, s': State)
    requires Next(s, CallerActs(i, ev), s') && HandleGone(s)
    ensures HandleGone(s')
    ensures !s.core.handle ==> !Receives(s.callers[i])
  {
    hide Next, CallerEffect, ControlEdge;
    CallerSummarized(s, i, ev, s');
    if !s.core.handle {
      DropsGoOn(s.core, s.callers[i], s'.callers[i]);
    }
  }

  lemma DropsGoOn(c: Core, p: Caller, p': Caller)
    requires Aborts(p)
    ensures Controls(p) && !Receives(p)
    ensures ControlEdge(c, p, p') ==> Aborts(p') || CallerFinished(p')
  {
  }

  lemma CallerDelivers(s: State, i: nat, ev: CallEvent, s': State)
    requires Next(s, CallerActs(i, ev), s') && Delivering(s) && InboundOk(s.core, s.inq, s.reader)
    requires Moves(s.core, s'.core)
    ensures Delivering(s')
  {
    hide CloseStep, BeginCloseStep, AborterStep, AdmitStep, SendStep, ClaimStep, ReceiveStep;
    hide InboundBytes, Reading, Receiving, Exhausted, HandleGone, CallerSummary, Receives;
    CallerSummarized(s, i, ev, s');
    CallersKeepHandle(s, i, ev, s');
    OtherCallsLeaveInbound(s, i, ev, s');
    if ClaimStep(s, i, ev, s') || ReceiveStep(s, i, ev, s') {
      ReceiverWorksLane(s, i, ev, s');
      assert HoldsLast(s.callers[i], s.log.popped);
      ReceiverCounts(s, i, s');
      ReceiverHolds(s, i, s');
      ReceiverKeepsBytes(s, i, s');
      ReceiverKeepsReading(s, i, s');
      ReceiverExhausts(s, i, s');
    } else {
      OthersKeepDelivering(s, i, s');
      OthersKeepHands(s, i, s');
    }
  }

  // ----- everybody else -----

  // With the inbound sender gone the reader leaves the lane alone.
  lemma ReaderDelivers(s: State, ev: ReaderEvent, s': State)
    requires ReaderStep(s, ev, s') && Asserted(s) && Delivering(s)
    ensures Delivering(s')
  {
    hide ReaderStep, ReaderEffect, ReaderEdge, InboundBytes, Reading, FailedReceive, InTheHand, Sum;
    hide ReaderOk, WriterOk, DogsOk, CallersOk, RepliesOk, OutboundOk, CoreOk;
    ReaderKeepsReading(s, ev, s');
    ReaderSummarized(s, ev, s');
    ReaderWorksLane(s, ev, s');
  }

  lemma UntouchedDelivers(s: State, s': State)
    requires Delivering(s) && Moves(s.core, s'.core)
    requires s'.cfg == s.cfg && s'.reader == s.reader && s'.callers == s.callers && s'.inq == s.inq
    requires s'.log == s.log.(wire := s'.log.wire, answered := s'.log.answered, lateAnswers := s'.log.lateAnswers)
    requires s'.core.handle == s.core.handle
    ensures Delivering(s')
  {
  }

  lemma AmbientDelivers(s: State, a: Action, s': State)
    requires (Starts(s, a, s') || Ambient(s, a, s')) && Delivering(s)
    ensures Delivering(s')
  {
    if Starts(s, a, s') {
      StartDelivers(s, a, s');
    } else {
      hide Quiet, InTheHand, FailedReceive, TakenBytes, OutIdle, OutHand, InIdle, InHand, Handed;
    }
  }

  lemma StartDelivers(s: State, a: Action, s': State)
    requires Starts(s, a, s') && Delivering(s)
    ensures Delivering(s')
  {
    hide InTheHand, FailedReceive, TakenBytes, OutIdle, OutHand, InIdle, InHand, Handed, HandsHoldLast, Exhausted;
    var c := s'.callers[|s.callers|];
    NoReceiveYet(c);
    AppendedSums(s.callers, c);
    StartsDeliver(s, s', c);
  }

  lemma AppendedSums(callers: seq<Caller>, c: Caller)
    requires CallerFresh(c) || c == AStore(true)
    ensures var after := callers + [c];
            && Sum(OutIdle, after) == Sum(OutIdle, callers) && Sum(OutHand, after) == Sum(OutHand, callers)
            && Sum(InIdle, after) == Sum(InIdle, callers) && Sum(InHand, after) == Sum(InHand, callers)
            && Sum(Handed, after) == Sum(Handed, callers) && Sum(TakenBytes, after) == Sum(TakenBytes, callers)
  {
  }

  lemma NoReceiveYet(p: Caller)
    requires CallerFresh(p) || p == AStore(true)
    ensures TakenBytes(p) == 0 && OutIdle(p) == 0 && OutHand(p) == 0 && InIdle(p) == 0
    ensures InHand(p) == 0 && Handed(p) == 0
    ensures InTheHand(p) == [] && !FailedReceive(p)
  {
  }

  lemma StartsDeliver(s: State, s': State, c: Caller)
    requires HandsHoldLast(s) && Exhausted(s) && InTheHand(c) == [] && !FailedReceive(c)
    requires s'.callers == s.callers + [c] && s'.log == s.log && s'.inq == s.inq
    ensures HandsHoldLast(s') && Exhausted(s')
  {
  }

  lemma StepDelivers(s: State, a: Action, s': State)
    requires Asserted(s) && Next(s, a, s') && Delivering(s)
    ensures Delivering(s')
  {
    hide Delivering, ReaderStep, WriterStep, DogStep, Starts, Ambient, WriterEdge, WriterEffect, DogEdge, DogEffect;
    hide Answered;
    hide CloseStep, BeginCloseStep, AborterStep, AdmitStep, SendStep, ClaimStep, ReceiveStep, Moves, MovesBesideReader;
    hide CoreOk, ReaderOk, WriterOk, DogsOk, CallersOk, RepliesOk, InboundOk, OutboundOk;
    StepKeepsAssertions(s, a, s');
    match a {
      case ReaderActs(ev) => ReaderDelivers(s, ev, s');
      case WriterActs(ev) =>
        WriterSummarized(s, ev, s');
        WriterWorksLane(s, ev, s');
        WriterLeavesInbound(s, s');
        UntouchedDelivers(s, s');
      case DogActs(k, ev) =>
        DogSummarized(s, k, ev, s');
        UntouchedDelivers(s, s');
      case CallerActs(i, ev) => CallerDelivers(s, i, ev, s');
      case _ => AmbientDelivers(s, a, s');
    }
  }

  lemma WriterLeavesInbound(s: State, s': State)
    requires WriterLane(s, s')
    ensures s'.log == s.log.(wire := s'.log.wire, answered := s'.log.answered, lateAnswers := s'.log.lateAnswers)
  {
  }

  lemma InitDelivers(s: State)
    requires Init(s)
    ensures Delivering(s)
  {
  }

  // ----- the main statements -----

  // What receives have returned is, in order and without repeats, a prefix of
  // the data messages read off the wire; the reader drops one only after the
  // signal has left Running, and from then on it drops them all.
  lemma DeliveryIsPrefix(s: State)
    requires Delivering(s)
    ensures s.log.returned <= s.log.popped <= s.log.kept <= s.log.taken
    ensures |s.log.popped| <= |s.log.returned| + 1
    ensures s.core.signal.value.Running? ==>
              s.log.taken == s.log.popped + s.inq.queue + ReaderHand(s.reader) || s.inq.gone
    ensures s.log.discarding ==> !s.reader.RAcquire? && !s.reader.REnqueue?
  {
  }

  // A receive that reports the terminal error has missed nothing: every message
  // that was enqueued has been returned before it.
  lemma FailureComesLast(s: State, i: nat)
    requires Delivering(s) && i < |s.callers| && FailedReceive(s.callers[i])
    ensures s.log.popped == s.log.kept && s.inq.queue == []
    ensures !s.callers[i].ReceiveDone? ==> s.log.returned == s.log.kept
  {
    hide InboundBytes, HandsHoldLast, HandleGone;
    if !s.callers[i].ReceiveDone? {
      SumUpdate(InIdle, s.callers, i, VClaim);
      SumUpdate(OutIdle, s.callers, i, VClaim);
    }
  }

  // Payloads in the reader and in the queue exceed the budget by at most one
  // message.
  lemma InboundIsBounded(s: State)
    requires Delivering(s)
    ensures MessageBytes(s.inq.queue) + Sum(SizeOf, ReaderHand(s.reader))
            <= s.cfg.maxBufferedBytes + s.cfg.maxMessageSize
    ensures s.inq.free <= s.cfg.maxBufferedBytes && |s.inq.queue| <= s.cfg.maxQueue
  {
  }

  ghost predicate ReaderBlocked(s: State) {
    || (s.reader.RAcquire? && SizeOf(s.reader.m) > s.inq.free)
    || (s.reader.REnqueue? && !s.inq.gone && |s.inq.queue| >= s.cfg.maxQueue)
  }

  // What consumers still have to take and release.
  function Releasing(p: Caller): nat { if p.VRelease? then 1 else 0 }

  function Backlog(s: State): nat { 2 * |s.inq.queue| + Sum(Releasing, s.callers) }

  // Back-pressure cannot deadlock: a blocked reader means that a message is
  // queued or being taken. This is what max_message_size <= max_buffered_bytes
  // buys.
  lemma BlockedReaderHasBacklog(s: State)
    requires Delivering(s) && Limits(s.cfg) && ReaderBlocked(s)
    ensures Backlog(s) > 0
  {
    hide Receiving, HandsHoldLast, Exhausted, HandleGone, TakenBytes, Releasing;
    if s.reader.RAcquire? {
      assert s.reader.m in ReaderHand(s.reader);
      SumIsPositive(TakenBytes, s.callers);
      SumIsPositive(Releasing, s.callers);
      if s.inq.queue == [] {
        assert MessageBytes([]) == 0;
        var i :| 0 <= i < |s.callers| && TakenBytes(s.callers[i]) > 0;
        TakersRelease(s.callers[i]);
      }
    }
  }

  lemma TakersRelease(p: Caller)
    requires TakenBytes(p) > 0
    ensures Releasing(p) > 0
  {
  }

  // A message is taken off the queue, or its bytes are released.
  ghost predicate Consumes(s: State, a: Action, s': State) {
    && a.CallerActs? && a.i < |s.callers|
    && ((s.callers[a.i].VRecv? && s'.log.popped != s.log.popped) || s.callers[a.i].VRelease?)
  }

  lemma CallsLowerBacklog(s: State, i: nat, ev: CallEvent, s': State)
    requires Next(s, CallerActs(i, ev), s')
    ensures Backlog(s') <= Backlog(s)
    ensures Consumes(s, CallerActs(i, ev), s') ==> Backlog(s') < Backlog(s)
  {
    hide CloseStep, BeginCloseStep, AborterStep, AdmitStep, SendStep, ClaimStep, ReceiveStep;
    hide CallerEffect, ControlEdge, Controls, Receives, Releasing;
    CallerSummarized(s, i, ev, s');
    SumUpdate(Releasing, s.callers, i, s'.callers[i]);
    OtherCallsLeaveInbound(s, i, ev, s');
    if ClaimStep(s, i, ev, s') || ReceiveStep(s, i, ev, s') {
      ReceiverWorksLane(s, i, ev, s');
      ReceiverWorksBacklog(s.callers[i], s.inq, s.log, s'.callers[i], s'.inq, s'.log);
    } else {
      NoReceiveNoRelease(s.callers[i]);
      NoReceiveNoRelease(s'.callers[i]);
    }
  }

  // While the reader is blocked nobody, the reader included, adds to the
  // backlog, and every message taken or released takes away from it.
  lemma BacklogFalls(s: State, a: Action, s': State)
    requires Next(s, a, s') && ReaderBlocked(s)
    ensures Backlog(s') <= Backlog(s)
    ensures Consumes(s, a, s') ==> Backlog(s') < Backlog(s)
  {
    hide CloseStep, BeginCloseStep, AborterStep, AdmitStep, SendStep, ClaimStep, ReceiveStep, Quiet, Releasing;
    hide ReaderStep, WriterStep, DogStep, ReaderEdge, WriterEdge;
    hide DogEdge, ReaderEffect, WriterEffect, DogEffect, Answered;
    match a {
      case ReaderActs(ev) =>
        ReaderSummarized(s, ev, s');
        ReaderWorksLane(s, ev, s');
      case WriterActs(ev) => WriterSummarized(s, ev, s');
      case DogActs(k, ev) => DogSummarized(s, k, ev, s');
      case CallerActs(i, ev) => CallsLowerBacklog(s, i, ev, s');
      case CallStarts(c) => FreshReleasesNothing(s.callers, c);
      case HandleDrops => FreshReleasesNothing(s.callers, AStore(true));
      case _ =>
    }
  }

  lemma FreshReleasesNothing(callers: seq<Caller>, p: Caller)
    requires CallerFresh(p) || p == AStore(true)
    ensures Sum(Releasing, callers + [p]) == Sum(Releasing, callers)
  {
    SumAppend(Releasing, callers, p);
  }

  // Nobody but the reader takes inbound bytes or room.
  lemma NobodyElseBlocks(s: State, a: Action, s': State)
    requires Next(s, a, s') && !a.ReaderActs?
    ensures ReaderBlocked(s') ==> ReaderBlocked(s)
  {
    hide CloseStep, BeginCloseStep, AborterStep, AdmitStep, SendStep, ClaimStep, ReceiveStep, Quiet, Receives, Controls;
    hide WriterStep, DogStep, WriterEdge, DogEdge, WriterEffect, DogEffect, Answered, CallerEffect, ControlEdge;
    match a {
      case WriterActs(ev) => WriterSummarized(s, ev, s');
      case DogActs(k, ev) => DogSummarized(s, k, ev, s');
      case CallerActs(i, ev) =>
        CallerSummarized(s, i, ev, s');
        OtherCallsLeaveInbound(s, i, ev, s');
        if ClaimStep(s, i, ev, s') || ReceiveStep(s, i, ev, s') {
          ReceiverWorksLane(s, i, ev, s');
          ReceiverGivesRoom(s.callers[i], s.inq, s.log, s'.callers[i], s'.inq, s'.log);
        }
      case _ =>
    }
  }

  lemma ReceiverGivesRoom(p: Caller, n: Inbound, l: Log, p': Caller, n': Inbound, l': Log)
    requires ReceiverLane(p, n, l, p', n', l')
    ensures n.free <= n'.free && |n'.queue| <= |n.queue| && n'.gone == n.gone
  {
    match p {
      case VClaim => case VLock => case VRecv => case VTerminal => case VRelease(_) => case VUnlock(_) => case _ =>
    }
  }

  lemma ReceiverWorksBacklog(p: Caller, n: Inbound, l: Log, p': Caller, n': Inbound, l': Log)
    requires ReceiverLane(p, n, l, p', n', l')
    ensures 2 * |n'.queue| + Releasing(p') <= 2 * |n.queue| + Releasing(p)
    ensures (p.VRecv? && l'.popped != l.popped) || p.VRelease? ==>
              2 * |n'.queue| + Releasing(p') < 2 * |n.queue| + Releasing(p)
  {
    match p {
      case VClaim => case VLock => case VRecv => case VTerminal => case VRelease(_) => case VUnlock(_) => case _ =>
    }
  }

  lemma NoReceiveNoRelease(p: Caller)
    requires !Receives(p)
    ensures Releasing(p) == 0 && !p.VRecv? && !p.VRelease?
  {
  }

  // The mutex is always free for the receive that holds the claim, and only
  // one receive is past it.
  lemma OneReceiverAtATime(s: State, i: nat, j: nat)
    requires Delivering(s) && i < |s.callers| && j < |s.callers| && Past(s.callers[i]) > 0
    ensures s.inq.active
    ensures s.callers[i].VLock? ==> !s.inq.locked
    ensures i != j ==> Past(s.callers[j]) == 0
  {
    hide InboundBytes, Reading, HandsHoldLast, HandleGone, Exhausted;
    ReceiverSums(s.callers, i, VClaim);
    ReceiverSums(s.callers[i := VClaim], j, VClaim);
  }

  // Somebody is past its claim whenever the flag is set.
  lemma SomebodyIsPast(s: State) returns (i: nat)
    requires Delivering(s) && s.inq.active
    ensures i < |s.callers| && Past(s.callers[i]) > 0
  {
    hide InboundBytes, Reading, HandsHoldLast, Exhausted, HandleGone;
    SumIsPositive(OutIdle, s.callers);
    SumIsPositive(OutHand, s.callers);
    SumIsPositive(InIdle, s.callers);
    SumIsPositive(InHand, s.callers);
    i :| 0 <= i < |s.callers|
         && (OutIdle(s.callers[i]) > 0 || OutHand(s.callers[i]) > 0 || InIdle(s.callers[i]) > 0
            || InHand(s.callers[i]) > 0);
  }

  // Cancelling a receive at either await consumes nothing.
  lemma CancelConsumesNothing(s: State, i: nat, s': State)
    requires Next(s, CallerActs(i, Cancel), s') && (s.callers[i].VLock? || s.callers[i].VRecv?)
    ensures s'.inq == s.inq && s'.log == s.log
    ensures s'.callers[i] == if s.callers[i].VLock? then VUnclaim(ReceiveCancelled) else VUnlock(ReceiveCancelled)
  {
  }

  // A cancelled receive ends with the flag and the mutex given back and the
  // queue as it was.
  lemma CancelledReceiveGivesBack(s: State, i: nat, ev: CallEvent, s': State)
    requires Delivering(s) && Next(s, CallerActs(i, ev), s') && i < |s.callers|
    requires i < |s'.callers| && s'.callers[i] == ReceiveDone(ReceiveCancelled)
    ensures !s'.inq.active && !s'.inq.locked && s'.inq.queue == s.inq.queue && s'.log == s.log
  {
    hide CloseStep, BeginCloseStep, AborterStep, AdmitStep, SendStep, ClaimStep, ReceiveStep, Delivering, Receives;
    OtherCallsLeaveInbound(s, i, ev, s');
    if ClaimStep(s, i, ev, s') || ReceiveStep(s, i, ev, s') {
      ReceiverWorksLane(s, i, ev, s');
      LeaverHasUnlocked(s, i);
    } else {
      DoneReceives(s'.callers[i]);
    }
  }

  lemma DoneReceives(p: Caller)
    ensures p.ReceiveDone? ==> Receives(p)
  {
  }

  lemma LeaverHasUnlocked(s: State, i: nat)
    requires Delivering(s) && i < |s.callers|
    ensures s.callers[i].VUnclaim? ==> !s.inq.locked
  {
    hide InboundBytes, Reading, HandsHoldLast, HandleGone, Exhausted;
    ReceiverSums(s.callers, i, VClaim);
  }
}
