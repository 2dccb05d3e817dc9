// What every finite run says about traffic (src/driver.rs): order and
// completeness of delivery, the frames that go out, the budgets, the task
// counter and the watchdog.
module Traffic {
  import opened Config
  import opened Lanes
  import opened Sums
  import opened Machine
  import opened Effects
  import opened Assertions
  import opened Counting
  import opened Timers
  import opened Outflow
  import opened SendOrder
  import opened Inflow
  import opened Settling
  import opened Runs
  import opened Writes
  import opened Answers

  // ----- inbound -----

  // The data messages that came off the wire.
  function TakenIn(acts: seq<Action>): seq<InboundMessage> {
    if acts == [] then []
    else TakenIn(acts[..|acts| - 1]) +
         match acts[|acts| - 1]
         case ReaderActs(RWire(Data(m))) => [m]
         case _ => []
  }

  lemma StepTakes(s: State, a: Action, s': State)
    requires Next(s, a, s')
    ensures s'.log.taken == s.log.taken + TakenIn([a])
  {
    hide CloseStep, BeginCloseStep, AborterStep, AdmitStep, SendStep, ClaimStep, ReceiveStep, Quiet;
    hide ReaderStep, WriterStep, DogStep, DogEdge, DogEffect, Receives;
    assert [a][..0] == [];
    match a {
      case ReaderActs(ev) => ReaderTakes(s, ev, s');
      case WriterActs(ev) =>
        WriterWorksLane(s, ev, s');
        WriterLeavesInbound(s, s');
      case DogActs(k, ev) => DogSummarized(s, k, ev, s');
      case CallerActs(i, ev) =>
        OtherCallsLeaveInbound(s, i, ev, s');
        if ClaimStep(s, i, ev, s') || ReceiveStep(s, i, ev, s') {
          ReceiveLeavesOutbound(s, i, ev, s');
        }
      case _ =>
    }
  }

  lemma ReaderTakes(s: State, ev: ReaderEvent, s': State)
    requires ReaderStep(s, ev, s')
    ensures s'.log.taken == s.log.taken + (match ev case RWire(Data(m)) => [m] case _ => [])
  {
    if ReaderReads(s, ev, s') {
      match s.reader { case RSelect => case RTop => case _ => }
    } else if QueueInbound(s, ev, s') {
      match s.reader { case RGate(_) => case RAcquire(_) => case _ => }
    } else if ReaderJudges(s, ev, s') {
      match s.reader { case RLoadClosing(_) => case RStoreClosing(_, _) => case _ => }
    } else if FinishPeerClose(s, ev, s') {
      match s.reader { case RPublishPeer(_) => case RSignalPeer(_) => case _ => }
    } else if ReaderWaits(s, ev, s') {
      match s.reader { case RWaitCheck(_, _, _) => case RWaitPark(_, _, _) => case RLateTerminal(_) => case _ => }
    } else if FinishReaderFailure(s, ev, s') {
      match s.reader { case RPublishFailure(_) => case RSignalFailure => case _ => }
    } else if ReaderDrops(s, ev, s') {
      match s.reader { case RDropControl => case RDropInbound => case _ => }
    }
  }

  lemma {:induction false} TakenIsOffTheWire(states: seq<State>, acts: seq<Action>, k: nat)
    requires Run(states, acts) && k < |states|
    ensures states[k].log.taken == TakenIn(acts[..k])
  {
    hide Next;
    if k == 0 {
      assert acts[..0] == [];
    } else {
      hide Init, TakenIn;
      TakenIsOffTheWire(states, acts, k - 1);
      StepTakes(states[k - 1], acts[k - 1], states[k]);
      assert acts[..k] == acts[..k - 1] + [acts[k - 1]];
      TakenSnoc(acts[..k - 1], acts[k - 1]);
    }
  }

  lemma TakenSnoc(acts: seq<Action>, a: Action)
    ensures TakenIn(acts + [a]) == TakenIn(acts) + TakenIn([a])
  {
  }

  // The messages with which receive calls finish.
  function ReturnedAt(a: Action, s': State): seq<InboundMessage> {
    if a.CallerActs? && a.i < |s'.callers| && s'.callers[a.i].ReceiveDone? && s'.callers[a.i].received.ReceivedOk?
    then [s'.callers[a.i].received.m] else []
  }

  function ReturnedIn(states: seq<State>, acts: seq<Action>, k: nat): seq<InboundMessage>
    requires |states| == |acts| + 1 && k < |states|
  {
    if k == 0 then [] else ReturnedIn(states, acts, k - 1) + ReturnedAt(acts[k - 1], states[k])
  }

  lemma StepReturns(s: State, a: Action, s': State)
    requires Next(s, a, s')
    ensures s'.log.returned == s.log.returned + ReturnedAt(a, s')
  {
    hide CloseStep, BeginCloseStep, AborterStep, AdmitStep, SendStep, ClaimStep, ReceiveStep, Quiet;
    hide ReaderStep, WriterStep, DogStep, DogEdge, DogEffect, Receives, ReaderEdge, ReaderEffect, WriterEdge;
    hide WriterEffect, Answered;
    match a {
      case ReaderActs(ev) => ReaderLeavesSends(s, ev, s');
      case WriterActs(ev) =>
        WriterWorksLane(s, ev, s');
        WriterLeavesInbound(s, s');
      case DogActs(k, ev) => DogSummarized(s, k, ev, s');
      case CallerActs(i, ev) =>
        OtherCallsLeaveInbound(s, i, ev, s');
        if ClaimStep(s, i, ev, s') || ReceiveStep(s, i, ev, s') {
          ReceiverWorksLane(s, i, ev, s');
          ReceiverReturns(s.callers[i], s.inq, s.log, s'.callers[i], s'.inq, s'.log);
        } else {
          OnlyReceivesFinish(s'.callers[i]);
        }
      case _ =>
    }
  }

  lemma ReceiverReturns(p: Caller, n: Inbound, l: Log, p': Caller, n': Inbound, l': Log)
    requires ReceiverLane(p, n, l, p', n', l')
    ensures l'.returned == l.returned + if p'.ReceiveDone? && p'.received.ReceivedOk? then [p'.received.m] else []
  {
  }

  lemma OnlyReceivesFinish(p: Caller)
    requires !Receives(p)
    ensures !p.ReceiveDone?
  {
  }

  lemma {:induction false} ReturnedIsReturned(states: seq<State>, acts: seq<Action>, k: nat)
    requires Run(states, acts) && k < |states|
    ensures states[k].log.returned == ReturnedIn(states, acts, k)
  {
    hide Next, ReturnedAt;
    if k == 0 {
    } else {
      hide Init;
      ReturnedIsReturned(states, acts, k - 1);
      StepReturns(states[k - 1], acts[k - 1], states[k]);
    }
  }

  // The messages returned by receives are, in order and without repeats, a
  // prefix of the data messages that came off the wire; at most one more has
  // been taken from the queue, and while the signal is Running none has been
  // dropped on the way.
  lemma ReceivesReturnAPrefix(states: seq<State>, acts: seq<Action>, k: nat)
    requires Run(states, acts) && k < |states|
    ensures var s := states[k];
            && ReturnedIn(states, acts, k) <= s.log.popped <= s.log.kept <= TakenIn(acts[..k])
            && |s.log.popped| <= |ReturnedIn(states, acts, k)| + 1
            && (s.core.signal.value.Running? ==>
                  TakenIn(acts[..k]) == s.log.popped + s.inq.queue + ReaderHand(s.reader))
            && (s.log.discarding ==> !s.core.signal.value.Running?)
  {
    hide Init, Next, Delivering, TakenIn, ReturnedIn, ReaderHand;
    RunIsSound(states, acts, k);
    TakenIsOffTheWire(states, acts, k);
    ReturnedIsReturned(states, acts, k);
    DeliveryIsPrefix(states[k]);
    DiscardsLate(states[k]);
  }

  // The reader has a message in hand for which it waits or has bytes.
  ghost predicate Intaking(r: Reader) { r.RAcquire? || r.REnqueue? }

  lemma OthersKeepNothing(s: State, a: Action, s': State)
    requires Next(s, a, s') && !a.ReaderActs?
    ensures s'.reader == s.reader && s'.log.kept == s.log.kept
  {
    hide CloseStep, BeginCloseStep, AborterStep, AdmitStep, SendStep, ClaimStep, ReceiveStep, Quiet;
    hide WriterStep, DogStep, DogEdge, DogEffect, Receives, WriterEdge, WriterEffect, Answered, ControlEdge;
    hide CallerEffect, Controls;
    match a {
      case WriterActs(ev) =>
        WriterSummarized(s, ev, s');
        WriterWorksLane(s, ev, s');
        WriterLeavesInbound(s, s');
      case DogActs(k, ev) => DogSummarized(s, k, ev, s');
      case CallerActs(i, ev) =>
        CallerSummarized(s, i, ev, s');
        OtherCallsLeaveInbound(s, i, ev, s');
        if ClaimStep(s, i, ev, s') || ReceiveStep(s, i, ev, s') {
          ReceiveLeavesOutbound(s, i, ev, s');
        }
      case _ =>
    }
  }

  lemma ReaderKeepsWhat(s: State, ev: ReaderEvent, s': State)
    requires Next(s, ReaderActs(ev), s')
    ensures s'.log.kept == s.log.kept || (s.reader.REnqueue? && s'.log.kept == s.log.kept + ReaderHand(s.reader))
    ensures Intaking(s'.reader) ==>
              && s'.log.kept == s.log.kept && ReaderHand(s'.reader) == ReaderHand(s.reader)
              && (Intaking(s.reader) || (s.reader.RGate? && s.core.signal.value.Running?))
  {
    hide ReaderStep;
    ReaderWorksLane(s, ev, s');
  }

  // Once the signal has left Running nothing more is taken in: of all the
  // messages still read off the wire only the one that the reader had in hand
  // already may be enqueued.
  lemma {:induction false} IntakeStops(states: seq<State>, acts: seq<Action>, j: nat, k: nat)
    requires Run(states, acts) && j <= k < |states| && !states[j].core.signal.value.Running?
    ensures states[k].log.kept == states[j].log.kept
            || (Intaking(states[j].reader) && !Intaking(states[k].reader)
                && states[k].log.kept == states[j].log.kept + ReaderHand(states[j].reader))
    ensures Intaking(states[k].reader) ==>
              Intaking(states[j].reader) && ReaderHand(states[k].reader) == ReaderHand(states[j].reader)
    decreases k
  {
    hide Init, Next, Sound, Onward, ReaderHand;
    if j == k {
    } else {
      IntakeStops(states, acts, j, k - 1);
      RunOnward(states, acts, j, k - 1);
      StaysSignalled(states[j].core, states[k - 1].core);
      if acts[k - 1].ReaderActs? {
        ReaderKeepsWhat(states[k - 1], acts[k - 1].re, states[k]);
      } else {
        OthersKeepNothing(states[k - 1], acts[k - 1], states[k]);
      }
    }
  }

  lemma StaysSignalled(c: Core, d: Core)
    requires Onward(c, d) && !c.signal.value.Running?
    ensures !d.signal.value.Running?
  {
  }

  lemma DiscardsLate(s: State)
    requires Sound(s)
    ensures s.log.discarding ==> !s.core.signal.value.Running?
    ensures s.inq.gone ==> !s.core.signal.value.Running?
  {
    hide CoreOk, ReaderOk, WriterOk, DogsOk, CallersOk, RepliesOk, OutboundOk, Counted, OneWatchdog, Timed, Conserved;
    hide Ordered, WireTimed, Owed, Settled, Receiving, InboundBytes, HandsHoldLast, Exhausted, HandleGone;
  }

  // A receive that has failed, or is about to, has missed nothing that was
  // enqueued, and nothing is enqueued later.
  lemma FailedReceiveMissedNothing(states: seq<State>, acts: seq<Action>, k: nat, i: nat)
    requires Run(states, acts) && k < |states| && i < |states[k].callers| && FailedReceive(states[k].callers[i])
    ensures var s := states[k];
            && s.inq.closed && s.inq.queue == [] && s.log.popped == s.log.kept
            && (!s.callers[i].ReceiveDone? ==> ReturnedIn(states, acts, k) == s.log.kept)
            && (!s.callers[i].VTerminal? ==> ClosedWith(s.core, s.callers[i].received.error))
  {
    hide Init, Next, Delivering, ReturnedIn;
    RunIsSound(states, acts, k);
    ReturnedIsReturned(states, acts, k);
    FailureComesLast(states[k], i);
    FailuresAreFinal(states[k], i);
  }

  lemma FailuresAreFinal(s: State, i: nat)
    requires Sound(s) && i < |s.callers| && FailedReceive(s.callers[i])
    ensures !s.callers[i].VTerminal? ==> ClosedWith(s.core, s.callers[i].received.error)
    ensures s.inq.closed
  {
    hide CoreOk, ReaderOk, WriterOk, DogsOk, RepliesOk, InboundOk, OutboundOk, Counted, OneWatchdog, Timed, Conserved;
    hide Ordered, WireTimed, Owed, Settled, Receiving, InboundBytes, HandsHoldLast, Reading, HandleGone;
    assert CallerOk(s.core, s.callers[i]);
  }

  // Permits are conserved, and payloads held by reader and queue exceed the
  // budget by at most one message.
  lemma InboundBudgetHolds(states: seq<State>, acts: seq<Action>, k: nat)
    requires Run(states, acts) && k < |states|
    ensures var s := states[k];
            && s.inq.free + MessageBytes(s.inq.queue) + ReaderPermit(s.reader) + Sum(TakenBytes, s.callers)
               == s.cfg.maxBufferedBytes
            && MessageBytes(s.inq.queue) + Sum(SizeOf, ReaderHand(s.reader))
               <= s.cfg.maxBufferedBytes + s.cfg.maxMessageSize
            && (ReaderBlocked(s) ==> Backlog(s) > 0)
  {
    hide Init, Next, Backlog, ReaderBlocked, ReaderHand, TakenBytes;
    RunIsSound(states, acts, k);
    SoundReader(states[k]);
    InboundIsBounded(states[k]);
    if ReaderBlocked(states[k]) {
      BlockedReaderHasBacklog(states[k]);
    }
  }

  lemma SoundReader(s: State)
    requires Sound(s)
    ensures InboundBytes(s) && Limits(s.cfg)
  {
    hide CoreOk, ReaderOk, WriterOk, DogsOk, CallersOk, RepliesOk, InboundOk, OutboundOk, Counted, OneWatchdog, Timed;
    hide Conserved, Ordered, WireTimed, Owed, Settled, Receiving, InboundBytes, HandsHoldLast, Exhausted, HandleGone;
    hide Reading;
  }

  // ----- outbound -----

  // Free bytes and the bytes held by admissions, queued commands and the writer
  // add up to the budget, none of them is for a message larger than allowed,
  // items fit the queue, and few admissions wait.
  lemma OutboundBudgetHolds(states: seq<State>, acts: seq<Action>, k: nat)
    requires Run(states, acts) && k < |states|
    ensures var s := states[k];
            && s.outq.free + Sum(BytesOf, s.callers) + CommandBytes(s.outq.queue) + HeldBytes(s.writer)
               == s.cfg.maxBufferedBytes
            && Sized(s)
            && Sum(SlotOf, s.callers) + |s.outq.queue| <= s.cfg.maxQueue
            && Sum(SlotOf, s.callers) + |s.outq.queue| + |Unanswered(s.writer)| <= s.cfg.maxQueue + 1
  {
    hide Init, Next, BytesOf, SlotOf, HeldBytes, Unanswered, Sized;
    RunIsSound(states, acts, k);
    NothingOversized(states, acts, k);
    FewUnanswered(states[k]);
  }

  // Sends answered Ok were written and are a prefix of queue order; what the driver writes is
  // their data frames in that order, then at most one close frame, as section
  // 5.5.1 of RFC 6455 asks, and nothing after it; at most one send is still
  // answered Ok after the signal has left Running.
  lemma SendsGoOutInOrder(states: seq<State>, acts: seq<Action>, k: nat)
    requires Run(states, acts) && k < |states|
    ensures var s := states[k];
            && s.log.answered <= s.log.queued
            && (forall id :: id in s.log.answered ==> WrittenBy(states, acts, k, id))
            && WireOk(s.log.wire, s.log.queued)
            && s.log.lateAnswers <= 1
            && (forall i :: 0 <= i < |s.callers| && s.callers[i] == SendDone(SentOk) ==> i in s.log.answered)
            && (forall i :: 0 <= i < |s.callers| && s.callers[i].SWaiting? ==>
               (i in s.outq.replies) != (i in Pending(s)))
  {
    hide Init, Next, WireOk, Pending, WrittenBy;
    RunIsSound(states, acts, k);
    SendsResolveInOrder(states[k]);
    WireIsOk(states[k]);
    forall id | id in states[k].log.answered ensures WrittenBy(states, acts, k, id) {
      AnsweredIfWritten(states, acts, k, id);
    }
  }

  lemma WireIsOk(s: State)
    requires WireTimed(s)
    ensures WireOk(s.log.wire, s.log.queued) && s.log.lateAnswers <= 1
  {
  }

  // Along a run the wire, the answers and the returns only grow.
  lemma StepGrowsLog(s: State, a: Action, s': State)
    requires Next(s, a, s')
    ensures s.log.wire <= s'.log.wire && s.log.answered <= s'.log.answered && s.log.queued <= s'.log.queued
  {
    hide CloseStep, BeginCloseStep, AborterStep, AdmitStep, SendStep, ClaimStep, ReceiveStep, Quiet, ReaderStep;
    hide WriterStep, DogStep;
    if a.WriterActs? {
      WireLogs(s, a.we, s');
      WriterWorksLane(s, a.we, s');
    } else {
      OthersLeaveWire(s, a, s');
    }
  }

  lemma {:induction false} NothingAfterClose(states: seq<State>, acts: seq<Action>, j: nat, k: nat)
    requires Run(states, acts) && j <= k < |states| && ClosesWith(states[j].log.wire)
    ensures states[k].log.wire == states[j].log.wire
    decreases k
  {
    hide Init, Next;
    if j == k {
    } else {
      NothingAfterClose(states, acts, j, k - 1);
      StepGrowsLog(states[k - 1], acts[k - 1], states[k]);
      SendsGoOutInOrder(states, acts, k);
      CloseIsLast(states[k - 1].log.wire, states[k].log.wire, states[k].log.queued);
    }
  }

  lemma CloseIsLast(before: seq<Frame>, after: seq<Frame>, queued: seq<nat>)
    requires ClosesWith(before) && before <= after && WireOk(after, queued)
    ensures after == before
  {
  }

  // ----- tasks -----

  // tasks_remaining is the number of live guards at every moment.
  lemma CounterIsExact(states: seq<State>, acts: seq<Action>, k: nat)
    requires Run(states, acts) && k < |states|
    ensures states[k].core.tasks.value == LiveTasks(states[k]) + Guards(states[k])
    ensures |states[k].dogs| <= 1
  {
    hide Init, Next;
    RunIsSound(states, acts, k);
  }

  ghost predicate SpawnsAt(s: State, a: Action) { a.CallerActs? && a.i < |s.callers| && s.callers[a.i].CSpawn? }

  lemma SpawnsGrow(s: State, a: Action, s': State)
    requires Next(s, a, s')
    ensures |s.dogs| + (if SpawnsAt(s, a) then 1 else 0) == |s'.dogs|
  {
    hide CloseStep, BeginCloseStep, AborterStep, AdmitStep, SendStep, ClaimStep, ReceiveStep, Quiet;
    hide ReaderStep, WriterStep, DogStep, ReaderEdge, WriterEdge, DogEdge, ControlEdge, Controls, Answered;
    hide ReaderEffect, WriterEffect, DogEffect, CallerEffect;
    match a {
      case ReaderActs(ev) => ReaderSummarized(s, ev, s');
      case WriterActs(ev) => WriterSummarized(s, ev, s');
      case DogActs(k, ev) => DogSummarized(s, k, ev, s');
      case CallerActs(i, ev) => CallerSummarized(s, i, ev, s');
      case _ =>
    }
  }

  lemma {:induction false} DogsGrow(states: seq<State>, acts: seq<Action>, j: nat, k: nat)
    requires Run(states, acts) && j <= k < |states|
    ensures |states[j].dogs| <= |states[k].dogs|
    decreases k
  {
    hide Init, Next;
    if j == k {
    } else {
      DogsGrow(states, acts, j, k - 1);
      SpawnsGrow(states[k - 1], acts[k - 1], states[k]);
    }
  }

  // For any number of concurrent close() calls, one step of a run at most
  // spawns a watchdog.
  lemma WatchdogIsSpawnedOnce(states: seq<State>, acts: seq<Action>, j: nat, k: nat)
    requires Run(states, acts) && j <= k < |acts| && SpawnsAt(states[j], acts[j]) && SpawnsAt(states[k], acts[k])
    ensures j == k
  {
    hide Init, Next, SpawnsAt;
    if j < k {
      SpawnsGrow(states[j], acts[j], states[j + 1]);
      DogsGrow(states, acts, j + 1, k);
      SpawnsGrow(states[k], acts[k], states[k + 1]);
      CounterIsExact(states, acts, k + 1);
    }
  }

  // ----- at rest -----

  // When a close() has returned the tasks hold nothing any more: what is not
  // free is held by calls, by messages nobody has received, or by commands that
  // were queued too late.
  lemma RestReleasesPermits(states: seq<State>, acts: seq<Action>, j: nat, i: nat, k: nat)
    requires Run(states, acts) && j <= k < |states|
    requires i < |states[j].callers| && states[j].callers[i].CloseDone?
    ensures var s := states[k];
            && s.outq.free + Sum(BytesOf, s.callers) + CommandBytes(s.outq.queue) == s.cfg.maxBufferedBytes
            && s.inq.free + MessageBytes(s.inq.queue) + Sum(TakenBytes, s.callers) == s.cfg.maxBufferedBytes
  {
    hide Init, Next, BytesOf, TakenBytes, Sum;
    CloseLeavesNothingBehind(states, acts, j, i, k);
    OutboundBudgetHolds(states, acts, k);
    InboundBudgetHolds(states, acts, k);
  }
}
