// Nobody is stuck between two awaits (src/driver.rs): whoever module Fairness
// calls ready has a step it can take now. With ReadyStaysReady this makes the
// assumption on schedules one that a scheduler can meet.
module Enabled {
  import opened Errors
  import opened Cells
  import opened Lanes
  import opened Machine
  import opened Assertions
  import opened Runs
  import opened Fairness
  import Config
  import Outflow

  // ----- the reader -----

  lemma ReaderReadsOn(s: State) returns (ev: ReaderEvent, s': State)
    requires s.reader.RUnstarted? || s.reader.RTop? || s.reader.RSelect? || s.reader.RRecheck?
             || s.reader.RFlushRequest?
    requires s.reader.RSelect? ==> s.readerSeen < s.core.signal.version
    ensures ReaderReads(s, ev, s')
  {
    ev := if s.reader.RSelect? then RChanged else RGo;
    s' := match s.reader
      case RUnstarted => s.(reader := RTop)
      case RTop => s.(reader := if s.core.signal.value.Abort? then RDropControl else RSelect)
      case RSelect => s.(readerSeen := s.core.signal.version, reader := RRecheck)
      case RRecheck => s.(reader := if s.core.signal.value.Abort? then RDropControl else RTop)
      case RFlushRequest =>
        s.(reader := RTop, control :=
          if s.control.pending < 4 then s.control.(pending := s.control.pending + 1) else s.control)
      case _ => s;
  }

  lemma ReaderQueuesOn(s: State) returns (ev: ReaderEvent, s': State)
    requires s.reader.RGate? || s.reader.RAcquire? || s.reader.REnqueue?
    requires s.reader.RGate? || s.readerSeen < s.core.signal.version || ReaderServed(s)
    ensures QueueInbound(s, ev, s')
  {
    var m := s.reader.m;
    if s.reader.RGate? {
      ev := RGo;
      s' := if !s.core.signal.value.Running? then Discard(s).(reader := RTop)
            else if SizeOf(m) > Config.U32_MAX then Discard(s).(reader := RJudge(true, ENDED))
            else s.(reader := RAcquire(m));
    } else if s.readerSeen < s.core.signal.version {
      ev := RChanged;
      var t := Discard(s).(readerSeen := s.core.signal.version, reader := RTop);
      s' := if s.reader.RAcquire? then t else t.(inq := ReleaseIn(s.inq, SizeOf(m)));
    } else {
      ev := RGo;
      s' := if s.reader.RAcquire? then s.(reader := REnqueue(m), inq := AcquireIn(s.inq, SizeOf(m)))
            else if s.inq.gone then Discard(s).(reader := RJudge(true, ENDED), inq := ReleaseIn(s.inq, SizeOf(m)))
            else s.(reader := RTop, inq := EnqueueIn(s.inq, m), log := s.log.(kept := s.log.kept + [m]));
    }
  }

  lemma ReaderConcludesOn(s: State) returns (s': State)
    requires ReaderConcluding(s.reader)
    ensures ReaderJudges(s, RGo, s') || FinishPeerClose(s, RGo, s')
  {
    s' := match s.reader
      case RLoadClosing(frame) => s.(reader := RStoreClosing(frame, s.core.closing))
      case RStoreClosing(frame, local) =>
        SetVerdict(s.(core := StoreClosing(s.core)), PeerFrame(frame, local))
          .(reader := RPublishPeer(ClassifyClose(frame, local)))
      case RJudge(orderly, failure) =>
        if s.core.closing && orderly
        then SetVerdict(s, OrderlyEnd).(reader := RPublishPeer(ClosedOk(LOCAL_NORMAL)))
        else SetVerdict(s, BrokenEnd).(reader := RPublishFailure(failure))
      case RPublishPeer(o) => SetState(s, PublishPeerClosed(s.core.state.value, o)).(reader := RSignalPeer(o))
      case RSignalPeer(o) => SetSignal(s, SignalPeerClose(s.core.signal.value)).(reader := RArm(o))
      case RArm(o) => s.(reader := RWaitCheck(o, s.core.now + s.cfg.closeTimeout, s.core.state.version))
      case _ => s;
  }

  lemma ReaderWaitsOn(s: State) returns (ev: ReaderEvent, s': State)
    requires s.reader.RWaitCheck? || s.reader.RLateTerminal? || s.reader.RLateAbort?
             || (s.reader.RWaitPark? && ReaderReady(s.core, s.reader, s.readerSeen))
    ensures ReaderWaits(s, ev, s')
  {
    ev := if !s.reader.RWaitPark? then RGo else if s.reader.seen < s.core.state.version then RChanged else RExpired;
    s' := match s.reader
      case RWaitCheck(o, deadline, seen) =>
        s.(reader := if s.core.state.value.Closed? then RDropControl else RWaitPark(o, deadline, seen))
      case RWaitPark(o, deadline, seen) =>
        s.(reader := if seen < s.core.state.version
                     then RWaitCheck(o, deadline, s.core.state.version) else RLateTerminal(o))
      case RLateTerminal(o) => SetState(s, PublishTerminal(s.core.state.value, o)).(reader := RLateAbort)
      case RLateAbort => AbortWriter(s).(reader := RDropControl)
      case _ => s;
  }

  lemma ReaderLeavesOn(s: State) returns (s': State)
    requires s.reader.RPublishFailure? || s.reader.RSignalFailure? || s.reader.RAbortWriter?
             || (ReaderEnded(s.reader) && !s.reader.RDone?)
    ensures FinishReaderFailure(s, RGo, s') || ReaderDrops(s, RGo, s')
  {
    s' := match s.reader
      case RPublishFailure(e) => SetState(s, PublishTerminal(s.core.state.value, e)).(reader := RSignalFailure)
      case RSignalFailure => SetSignal(s, SignalAbort(s.core.signal.value)).(reader := RAbortWriter)
      case RAbortWriter => AbortWriter(s).(reader := RDropControl)
      case RDropControl => s.(control := s.control.(closed := true), reader := RDropInbound)
      case RDropInbound => s.(inq := s.inq.(closed := true), reader := RDropTransport)
      case RDropTransport => s.(reader := RDropGuard)
      case RDropGuard => SetTasks(s, Less(s.core.tasks.value)).(reader := RDone)
      case _ => s;
  }

  lemma ReaderCanStep(s: State) returns (ev: ReaderEvent, s': State)
    requires Ready(s, TheReader)
    ensures ReaderStep(s, ev, s')
  {
    hide ReaderReads, QueueInbound, ReaderJudges, FinishPeerClose, ReaderWaits, FinishReaderFailure, ReaderDrops;
    ev := RGo;
    if s.reader.RUnstarted? || s.reader.RTop? || s.reader.RSelect? || s.reader.RRecheck? || s.reader.RFlushRequest? {
      ev, s' := ReaderReadsOn(s);
    } else if s.reader.RGate? || s.reader.RAcquire? || s.reader.REnqueue? {
      ev, s' := ReaderQueuesOn(s);
    } else if ReaderConcluding(s.reader) {
      s' := ReaderConcludesOn(s);
    } else if s.reader.RWaitCheck? || s.reader.RLateTerminal? || s.reader.RLateAbort? || s.reader.RWaitPark? {
      ev, s' := ReaderWaitsOn(s);
    } else {
      s' := ReaderLeavesOn(s);
    }
  }

  // ----- the writer -----

  lemma WriterPollsOn(s: State) returns (ev: WriterEvent, s': State)
    requires s.writer.WPollQueues?
    ensures WriterServes(s, ev, s')
  {
    if s.outq.queue != [] {
      var c := s.outq.queue[0];
      ev := WTakeOutbound;
      s' := s.(outq := Dequeue(s.outq), writer := WWrite(c), log := s.log.(wire := s.log.wire + [DataFrame(c.id)]));
    } else if s.control.pending > 0 {
      ev := WTakeControl;
      s' := s.(control := s.control.(pending := s.control.pending - 1), writer := WFlush);
    } else if s.control.closed {
      ev := WControlClosed;
      s' := s.(writer := WFail(READER_STOPPED, None));
    } else if s.outq.reserved == 0 && s.outq.abandoned {
      ev := WOutboundClosed;
      s' := s.(writer := WShut);
    } else {
      ev := WIdle;
      s' := s.(writer := WPoll);
    }
  }

  lemma WriterServesOn(s: State) returns (ev: WriterEvent, s': State)
    requires s.writer.WPoll? || s.writer.WPollQueues? || s.writer.WReplyOk? || s.writer.WReleaseOk?
    ensures WriterServes(s, ev, s')
  {
    if s.writer.WPollQueues? {
      ev, s' := WriterPollsOn(s);
      return;
    }
    ev := WGo;
    s' := match s.writer
      case WPoll =>
        if s.writerSeen < s.core.signal.version
        then s.(writerSeen := s.core.signal.version, writer := WReadSignal) else s.(writer := WPollQueues)
      case WReplyOk(c) =>
        s.(outq := Answer(s.outq, c.id, Delivered), writer := WReleaseOk(c),
           log := s.log.(answered := s.log.answered + [c.id],
                         lateAnswers := s.log.lateAnswers + if s.core.signal.value.Running? then 0 else 1))
      case WReleaseOk(c) => s.(outq := Release(s.outq, c.size), writer := WPoll)
      case _ => s;
  }

  lemma WriterHeedsOn(s: State) returns (s': State)
    requires s.writer.WReadSignal? || s.writer.WReadPeer? || s.writer.WPublishPeer?
    ensures WriterHeeds(s, WGo, s')
  {
    s' := match s.writer
      case WReadSignal => (
        match s.core.signal.value
        case Running => s.(writer := WPoll)
        case Abort => s.(writer := WShut)
        case LocalClose => s.(writer := WSendClose, log := s.log.(wire := s.log.wire + [CloseFrameOut]))
        case PeerClose => s.(writer := WCloseFlush))
      case WReadPeer =>
        s.(writer := if s.core.state.value.PeerClosed? then WPublishPeer(s.core.state.value.outcome) else WShut)
      case WPublishPeer(o) => SetState(s, PublishTerminal(s.core.state.value, o)).(writer := WShut)
      case _ => s;
  }

  lemma WriterClosesOn(s: State) returns (s': State)
    requires s.writer.WHandshake? || s.writer.WHandshakeEnd?
             || (s.writer.WHandshakePark? && s.writerSeen < s.core.signal.version)
    ensures CloseWriter(s, WGo, s')
  {
    s' := match s.writer
      case WHandshake => s.(writer := if s.core.signal.value.LocalClose? then WHandshakePark else WHandshakeEnd)
      case WHandshakePark => s.(writerSeen := s.core.signal.version, writer := WHandshake)
      case WHandshakeEnd => s.(writer := if s.core.signal.value.Abort? then WReadPeer else WCloseFlush)
      case _ => s;
  }

  lemma WriterLeavesOn(s: State) returns (s': State)
    requires s.writer.WFail? || s.writer.WFailSignal? || s.writer.WReplyErr?
             || (WriterEnded(s.writer) && !s.writer.WDone?)
    ensures WriterLeaves(s, WGo, s')
  {
    s' := match s.writer
      case WFail(e, held) =>
        SetState(s, PublishWriterFailure(s.core.state.value, e))
          .(writer := WFailSignal(FailureValue(s.core.state.value, e), held))
      case WFailSignal(terminal, held) =>
        SetSignal(s, SignalAbort(s.core.signal.value))
          .(writer := if held.Some? then WReplyErr(held.value, terminal) else WShut)
      case WReplyErr(c, terminal) => s.(outq := Answer(s.outq, c.id, Refused(terminal)), writer := WRelease(c))
      case WDropCommand(c) => s.(outq := Answer(s.outq, c.id, Dropped), writer := WRelease(c))
      case WRelease(c) => s.(outq := Release(s.outq, c.size), writer := WShut)
      case WShut => s.(outq := Shut(s.outq), writer := WDrain)
      case WDrain => if s.outq.queue == [] then s.(writer := WDropTransport) else s.(outq := DropHead(s.outq))
      case WDropTransport => s.(writer := WDropGuard)
      case WDropGuard => SetTasks(s, Less(s.core.tasks.value)).(writer := WDone)
      case _ => s;
  }

  lemma WriterCanStep(s: State) returns (ev: WriterEvent, s': State)
    requires Ready(s, TheWriter)
    ensures WriterStep(s, ev, s')
  {
    hide WriterServes, WriterHeeds, CloseWriter, WriterLeaves;
    ev := WGo;
    if s.writer.WPoll? || s.writer.WPollQueues? || s.writer.WReplyOk? || s.writer.WReleaseOk? {
      ev, s' := WriterServesOn(s);
    } else if s.writer.WReadSignal? || s.writer.WReadPeer? || s.writer.WPublishPeer? {
      s' := WriterHeedsOn(s);
    } else if s.writer.WHandshake? || s.writer.WHandshakeEnd? || s.writer.WHandshakePark? {
      s' := WriterClosesOn(s);
    } else {
      s' := WriterLeavesOn(s);
    }
  }

  // ----- the watchdogs -----

  lemma DogCanStep(s: State, k: nat) returns (ev: DogEvent, s': State)
    requires Ready(s, TheDog(k))
    ensures DogStep(s, k, ev, s')
  {
    var d := s.dogs[k];
    ev := if !d.DPark? then DGo else if d.seen < s.core.state.version then DWoken else DExpired;
    s' := match d
      case DStart(seen) => s.(dogs := s.dogs[k := DCheck(seen, s.core.now + s.cfg.closeTimeout)])
      case DCheck(seen, deadline) =>
        s.(dogs := s.dogs[k := if s.core.state.value.Closed? then DDropGuard else DPark(seen, deadline)])
      case DPark(seen, deadline) =>
        s.(dogs := s.dogs[k := if seen < s.core.state.version then DCheck(s.core.state.version, deadline) else DFire])
      case DFire => SetState(s, PublishCloseTimeout(s.core.state.value)).(dogs := s.dogs[k := DAbortReader])
      case DAbortReader => AbortReader(s).(dogs := s.dogs[k := DAbortWriter])
      case DAbortWriter => AbortWriter(s).(dogs := s.dogs[k := DDropGuard])
      case DDropGuard => SetTasks(s, Less(s.core.tasks.value)).(dogs := s.dogs[k := DDone])
      case DDone => s;
  }

  // ----- the calls -----

  lemma CloseGoesOn(s: State, i: nat) returns (s': State)
    requires i < |s.callers| && CallerReady(s, i)
    requires var p := s.callers[i]; p.CRead? || p.CCheck? || p.CPark? || p.CTasks? || p.CTasksPark?
    ensures CloseStep(s, i, Go, s')
  {
    var terminal, p := s.core.state.value, s.callers[i];
    var next := match p
      case CRead => if terminal.Closed? then CTasks(terminal.outcome, 0) else CGuard
      case CCheck(seen) => if terminal.Closed? then CTasks(terminal.outcome, 0) else CPark(seen)
      case CPark(_) => CCheck(s.core.state.version)
      case CTasks(e, seen) => if s.core.tasks.value == 0 then CloseDone(e) else CTasksPark(e, seen)
      case CTasksPark(e, _) => CTasks(e, s.core.tasks.version)
      case _ => p;
    s' := SetCaller(s, i, next);
  }

  lemma BeginGoesOn(s: State, i: nat) returns (s': State)
    requires i < |s.callers|
    requires var p := s.callers[i];
             p.CGuard? || p.CSwap? || p.CBegin? || p.CSignal? || p.CTimer? || p.CSpawn? || p.CDropGuard?
    ensures BeginCloseStep(s, i, Go, s')
  {
    s' := match s.callers[i]
      case CGuard => SetCaller(SetTasks(s, s.core.tasks.value + 1), i, CSwap)
      case CSwap => SetCaller(s.(core := BeginClosing(s.core)), i, if s.core.closing then CDropGuard else CBegin)
      case CBegin =>
        SetCaller(SetState(s, BeginClose(s.core.state.value)), i,
                  if s.core.state.value.Open? then CSignal else CDropGuard)
      case CSignal => SetCaller(SetSignal(s, SignalLocalClose(s.core.signal.value)), i, CTimer)
      case CTimer =>
        SetCaller(s.(core := s.core.(timerStarted := true)), i, if s.core.timerStarted then CDropGuard else CSpawn)
      case CSpawn => SetCaller(s.(dogs := s.dogs + [DStart(s.core.state.version)]), i, CCheck(0))
      case CDropGuard => SetCaller(SetTasks(s, Less(s.core.tasks.value)), i, CCheck(0))
      case _ => s;
  }

  lemma AbortGoesOn(s: State, i: nat) returns (s': State)
    requires i < |s.callers| && Aborts(s.callers[i])
    ensures AborterStep(s, i, Go, s')
  {
    s' := match s.callers[i]
      case AStore(d) => SetCaller(s.(core := BeginClosing(s.core)), i, APublish(d))
      case APublish(d) => SetCaller(Abandon(s), i, ASignal(d))
      case ASignal(d) => SetCaller(SetSignal(s, SignalAbort(s.core.signal.value)), i, AReader(d))
      case AReader(d) => SetCaller(AbortReader(s), i, AWriter(d))
      case AWriter(d) => SetCaller(AbortWriter(s), i, if d then ADropInbound else AbortDone)
      case ADropInbound => SetCaller(s.(inq := Forsake(s.inq)), i, ADropOutbound)
      case ADropOutbound => SetCaller(s.(outq := s.outq.(abandoned := true)), i, AbortDone)
      case _ => s;
  }

  lemma AdmitGoesOn(s: State, i: nat) returns (s': State)
    requires i < |s.callers|
    requires var p := s.callers[i]; p.SCheck? || p.SBytes? || p.SReserve? || p.STerminal? || p.SRefund?
    ensures AdmitStep(s, i, Go, s')
  {
    var size := s.callers[i].size;
    s' := match s.callers[i]
      case SCheck(_) =>
        SetCaller(s, i,
          if !s.core.state.value.Open? then SendDone(SendRefused(TerminalError(s.core.state.value)))
          else if size > s.cfg.maxMessageSize then SendDone(SendRefused(TOO_LARGE))
          else SBytes(size))
      case SBytes(_) =>
        if size > Config.U32_MAX then SetCaller(s, i, SendDone(SendRefused(TOO_WIDE)))
        else if size > s.outq.free then SetCaller(s, i, SendDone(SendRefused(NO_BYTES)))
        else SetCaller(s.(outq := Acquire(s.outq, size)), i, SReserve(size))
      case SReserve(_) =>
        if s.outq.closed then SetCaller(s, i, STerminal(size))
        else if !HasSlot(s.outq, s.cfg.maxQueue) then SetCaller(s, i, SRefund(size, NO_SLOT))
        else SetCaller(s.(outq := Reserve(s.outq)), i, SAdmitted(size))
      case STerminal(_) => SetCaller(s, i, SRefund(size, TerminalError(s.core.state.value)))
      case SRefund(_, e) => SetCaller(s.(outq := Release(s.outq, size)), i, SendDone(SendRefused(e)))
      case _ => s;
  }

  lemma SendGoesOn(s: State, i: nat) returns (s': State)
    requires i < |s.callers| && CallerReady(s, i) && Outflow.Conserved(s)
    requires s.callers[i].SUnreserve? || s.callers[i].SWaiting? || s.callers[i].SLost?
    ensures SendStep(s, i, Go, s')
  {
    if s.callers[i].SUnreserve? {
      Outflow.AdmissionKeepsItsSlot(s, i);
      s' := SetCaller(s.(outq := Unreserve(s.outq)), i, SendDone(s.callers[i].sent));
    } else if s.callers[i].SWaiting? {
      s' := SetCaller(s, i,
        match s.outq.replies[i]
        case Delivered => SendDone(SentOk)
        case Refused(e) => SendDone(SendFailed(e))
        case Dropped => SLost);
    } else {
      s' := SetCaller(s, i, SendDone(SendFailed(TerminalError(s.core.state.value))));
    }
  }

  lemma ReceiveGoesOn(s: State, i: nat) returns (s': State)
    requires i < |s.callers| && CallerReady(s, i)
    requires var p := s.callers[i];
             p.VClaim? || p.VLock? || p.VRecv? || p.VTerminal? || p.VRelease? || p.VUnlock? || p.VUnclaim?
    ensures ClaimStep(s, i, Go, s') || ReceiveStep(s, i, Go, s')
  {
    s' := match s.callers[i]
      case VClaim =>
        if s.inq.active then SetCaller(s, i, ReceiveDone(ReceiveRejected(BUSY)))
        else SetCaller(s.(inq := s.inq.(active := true)), i, VLock)
      case VLock => SetCaller(s.(inq := s.inq.(locked := true)), i, VRecv)
      case VRecv =>
        if s.inq.queue == [] then SetCaller(s, i, VTerminal)
        else SetCaller(s.(inq := DequeueIn(s.inq), log := s.log.(popped := s.log.popped + [s.inq.queue[0]])),
                       i, VRelease(s.inq.queue[0]))
      case VTerminal => SetCaller(s, i, VUnlock(ReceiveFailed(TerminalError(s.core.state.value))))
      case VRelease(m) => SetCaller(s.(inq := ReleaseIn(s.inq, SizeOf(m))), i, VUnlock(ReceivedOk(m)))
      case VUnlock(r) => SetCaller(s.(inq := s.inq.(locked := false)), i, VUnclaim(r))
      case VUnclaim(r) =>
        SetCaller(
          s.(inq := s.inq.(active := false),
             log := if r.ReceivedOk? then s.log.(returned := s.log.returned + [r.m]) else s.log),
          i, ReceiveDone(r))
      case _ => s;
  }

  lemma CallerCanStep(s: State, i: nat) returns (s': State)
    requires Outflow.Conserved(s) && Ready(s, TheCaller(i))
    ensures Next(s, CallerActs(i, Go), s')
  {
    hide CloseStep, BeginCloseStep, AborterStep, AdmitStep, SendStep, ClaimStep, ReceiveStep, Outflow.Conserved;
    var p := s.callers[i];
    if p.CRead? || p.CCheck? || p.CPark? || p.CTasks? || p.CTasksPark? {
      s' := CloseGoesOn(s, i);
    } else if p.CGuard? || p.CSwap? || p.CBegin? || p.CSignal? || p.CTimer? || p.CSpawn? || p.CDropGuard? {
      s' := BeginGoesOn(s, i);
    } else if Aborts(p) {
      s' := AbortGoesOn(s, i);
    } else if p.SCheck? || p.SBytes? || p.SReserve? || p.STerminal? || p.SRefund? {
      s' := AdmitGoesOn(s, i);
    } else if p.SUnreserve? || p.SWaiting? || p.SLost? {
      s' := SendGoesOn(s, i);
    } else {
      s' := ReceiveGoesOn(s, i);
    }
  }

  // Whoever is ready can go on.
  lemma ReadyCanStep(s: State, x: Actor) returns (a: Action, s': State)
    requires Sound(s) && Ready(s, x)
    ensures Next(s, a, s') && Performs(Some(a), x)
  {
    hide Ready, ReaderStep, WriterStep, DogStep, Outflow.Conserved, Asserted;
    hide CloseStep, BeginCloseStep, AborterStep, AdmitStep, SendStep, ClaimStep, ReceiveStep;
    match x {
      case TheReader =>
        var ev;
        ev, s' := ReaderCanStep(s);
        a := ReaderActs(ev);
      case TheWriter =>
        var ev;
        ev, s' := WriterCanStep(s);
        a := WriterActs(ev);
      case TheDog(k) =>
        var ev;
        ev, s' := DogCanStep(s, k);
        a := DogActs(k, ev);
        ReadyIsThere(s, x);
      case TheCaller(i) =>
        s' := CallerCanStep(s, i);
        a := CallerActs(i, Go);
    }
  }

  lemma ReadyIsThere(s: State, x: Actor)
    requires Ready(s, x)
    ensures x.TheDog? ==> x.k < |s.dogs|
  {
  }
}
