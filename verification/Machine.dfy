// The connection driver as a step relation (src/driver.rs). The reader, the
// writer, every close watchdog and every caller have a program counter; each
// single access to a shared cell is one step, and any schedule is allowed.
//
// A task abort is honoured only where the task is parked at an await. The wire
// yields arbitrary items, writes succeed, fail or block, and callers may be
// cancelled at their awaits. The clock does not tick while anyone is between
// two awaits or while a timer is due.
module Machine {
  import opened Errors
  import opened Config
  import opened Cells
  import opened Lanes

  // ----- program counters -----

  datatype Reader =
    | RUnstarted
    | RTop
    | RSelect
    | RRecheck
    | RFlushRequest
    // queue_inbound
    | RGate(m: InboundMessage)
    | RAcquire(m: InboundMessage)
    | REnqueue(m: InboundMessage)
    // the close-frame branch
    | RLoadClosing(frame: Option<CloseFrame>)
    | RStoreClosing(frame: Option<CloseFrame>, local: bool)
    // a read error or the end of the stream: is this an orderly end?
    | RJudge(orderly: bool, failure: DriverError)
    // finish_peer_close
    | RPublishPeer(o: DriverError)
    | RSignalPeer(o: DriverError)
    | RArm(o: DriverError)
    | RWaitCheck(o: DriverError, deadline: nat, seen: nat)
    | RWaitPark(o: DriverError, deadline: nat, seen: nat)
    | RLateTerminal(o: DriverError)
    | RLateAbort
    // finish_reader_failure
    | RPublishFailure(e: DriverError)
    | RSignalFailure
    | RAbortWriter
    // the task's locals are dropped, then its guard
    | RDropControl
    | RDropInbound
    | RDropTransport
    | RDropGuard
    | RDone

  datatype Writer =
    | WPoll
    | WPollQueues
    | WFlush
    | WWrite(c: Command)
    | WReplyOk(c: Command)
    | WReleaseOk(c: Command)
    | WReadSignal
    // close_writer
    | WSendClose
    | WHandshake
    | WHandshakePark
    | WHandshakeEnd
    | WCloseFlush
    | WReadPeer
    | WPublishPeer(o: DriverError)
    // a failed write
    | WFail(e: DriverError, held: Option<Command>)
    | WFailSignal(terminal: DriverError, held: Option<Command>)
    | WReplyErr(c: Command, terminal: DriverError)
    // the task's locals are dropped, then its guard
    | WDropCommand(c: Command)
    | WRelease(c: Command)
    | WShut
    | WDrain
    | WDropTransport
    | WDropGuard
    | WDone

  datatype Dog =
    | DStart(seen: nat)
    | DCheck(seen: nat, deadline: nat)
    | DPark(seen: nat, deadline: nat)
    | DFire
    | DAbortReader
    | DAbortWriter
    | DDropGuard
    | DDone

  datatype Sent = SentOk | SendRefused(error: DriverError) | SendFailed(error: DriverError) | SendCancelled

  datatype Received =
    | ReceivedOk(m: InboundMessage)
    | ReceiveFailed(error: DriverError)
    | ReceiveRejected(error: DriverError)
    | ReceiveCancelled

  datatype Caller =
    // close()
    | CRead
    | CGuard
    | CSwap
    | CBegin
    | CSignal
    | CTimer
    | CSpawn
    | CDropGuard
    | CCheck(seen: nat)
    | CPark(seen: nat)
    | CTasks(terminal: DriverError, seen: nat)
    | CTasksPark(terminal: DriverError, seen: nat)
    | CloseDone(terminal: DriverError)
    | CloseCancelled
    // abort(), also from Drop, which then drops the fields
    | AStore(dropping: bool)
    | APublish(dropping: bool)
    | ASignal(dropping: bool)
    | AReader(dropping: bool)
    | AWriter(dropping: bool)
    | ADropInbound
    | ADropOutbound
    | AbortDone
    // try_admit_outbound and send_admitted
    | SCheck(size: nat)
    | SBytes(size: nat)
    | SReserve(size: nat)
    | STerminal(size: nat)
    | SRefund(size: nat, error: DriverError)
    | SAdmitted(size: nat)
    | SUnreserve(sent: Sent)
    | SWaiting
    | SLost
    | SendDone(sent: Sent)
    // receive()
    | VClaim
    | VLock
    | VRecv
    | VTerminal
    | VRelease(m: InboundMessage)
    | VUnlock(received: Received)
    | VUnclaim(received: Received)
    | ReceiveDone(received: Received)

  // ----- state -----

  // The shared cells, the clock, and a record (since, begun, abandoned,
  // verdict) of how the connection came to end; no step looks at the record.
  datatype Core = Core(
    state: StateCell,
    signal: SignalCell,
    closing: bool,
    timerStarted: bool,
    tasks: CountCell,
    readerAbort: bool,
    writerAbort: bool,
    handle: bool,                // the driver's last Arc is still there
    now: nat,
    since: Option<nat>,          // clock when `closing` was first set
    begun: bool,                 // close() or abort() has set `closing`
    abandoned: bool,             // abort() has published
    verdict: Option<Verdict>)    // why the reader stopped reading

  // Capacity 4; closed once the reader's sender is gone.
  datatype Control = Control(pending: nat, closed: bool)

  // Why the reader stopped reading.
  datatype Verdict =
    | PeerFrame(frame: Option<CloseFrame>, local: bool)
    | OrderlyEnd
    | BrokenEnd

  datatype Frame = DataFrame(id: nat) | CloseFrameOut

  // The traffic so far; no step looks at it.
  datatype Log = Log(
    taken: seq<InboundMessage>,        // data messages read off the wire
    kept: seq<InboundMessage>,         // of those, enqueued
    discarding: bool,                  // of those, some dropped
    popped: seq<InboundMessage>,       // handed to a receive
    returned: seq<InboundMessage>,     // returned by receives
    queued: seq<nat>,                  // sends in queue order
    answered: seq<nat>,                // sends answered Ok
    lateAnswers: nat,                  // of those, after the signal left Running
    wire: seq<Frame>)                  // frames the driver started to write

  datatype State = State(
    cfg: ConnectionConfig,
    core: Core,
    reader: Reader,
    readerSeen: nat,
    writer: Writer,
    writerSeen: nat,
    dogs: seq<Dog>,
    callers: seq<Caller>,
    control: Control,
    inq: Inbound,
    outq: Outbound,
    log: Log)

  // After start(): both tasks spawned, both guards counted.
  predicate Init(s: State) {
    && Limits(s.cfg)
    && s.core == Core(StateCell(Open, 0), SignalCell(Running, 0), false, false, CountCell(2, 2), false, false,
                      true, 0, None, false, false, None)
    && s.reader == RUnstarted && s.readerSeen == 0
    && s.writer == WPoll && s.writerSeen == 0
    && s.dogs == [] && s.callers == []
    && s.control == Control(0, false)
    && s.inq == Inbound(s.cfg.maxBufferedBytes, [], false, false, false, false)
    && s.outq == Outbound(s.cfg.maxBufferedBytes, 0, [], false, false, map[])
    && s.log == Log([], [], false, [], [], [], [], 0, [])
  }

  // ----- updates of the core -----

  function StoreClosing(c: Core): Core {
    c.(closing := true, since := if c.closing then c.since else Some(c.now))
  }

  // By close() and abort().
  function BeginClosing(c: Core): Core { StoreClosing(c).(begun := true) }

  function SetState(s: State, d: DriverState): State {
    s.(core := s.core.(state := PutState(s.core.state, d)))
  }

  function SetSignal(s: State, g: ShutdownSignal): State {
    s.(core := s.core.(signal := PutSignal(s.core.signal, g)))
  }

  function SetTasks(s: State, count: nat): State {
    s.(core := s.core.(tasks := PutCount(s.core.tasks, count)))
  }

  function SetVerdict(s: State, v: Verdict): State {
    s.(core := s.core.(verdict := Some(v)))
  }

  function AbortReader(s: State): State { s.(core := s.core.(readerAbort := true)) }

  function AbortWriter(s: State): State { s.(core := s.core.(writerAbort := true)) }

  // ----- the reader -----

  datatype WireItem =
    | Data(message: InboundMessage)
    | PeerCloses(frame: Option<CloseFrame>)
    | PingOrPong
    | RawFrame
    | ReadError(connectionClosed: bool, text: string)
    | EndOfStream

  datatype ReaderEvent = RGo | RWire(item: WireItem) | RChanged | RExpired | RAborted

  const ENDED := Transport("WebSocket transport ended without a close frame")

  function OnWire(s: State, item: WireItem): State {
    match item
    case Data(m) => s.(reader := RGate(m), log := s.log.(taken := s.log.taken + [m]))
    case PeerCloses(frame) => s.(reader := RLoadClosing(frame))
    case PingOrPong => s.(reader := RFlushRequest)
    case RawFrame => s.(reader := RTop)
    case ReadError(closed, text) => s.(reader := RJudge(closed, Transport("WebSocket receive failed: " + text)))
    case EndOfStream => s.(reader := RJudge(true, ENDED))
  }

  predicate ReaderParked(r: Reader) {
    r.RUnstarted? || r.RSelect? || r.RAcquire? || r.REnqueue? || r.RWaitPark?
  }

  function Discard(s: State): State { s.(log := s.log.(discarding := true)) }

  // An honoured abort drops whatever the task holds.
  function ReaderUnwinds(s: State): State {
    match s.reader
    case RAcquire(m) => Discard(s).(reader := RDropControl)
    case REnqueue(m) => Discard(s).(reader := RDropControl, inq := ReleaseIn(s.inq, SizeOf(m)))
    case _ => s.(reader := RDropControl)
  }

  // The reading loop.
  predicate ReaderReads(s: State, ev: ReaderEvent, s': State) {
    match s.reader
    case RUnstarted => ev.RGo? && s' == s.(reader := RTop)
    case RTop =>
      ev.RGo? && s' == s.(reader := if s.core.signal.value.Abort? then RDropControl else RSelect)
    case RSelect =>
      || (ev.RWire? && (ev.item.Data? ==> SizeOf(ev.item.message) <= s.cfg.maxMessageSize) && s' == OnWire(s, ev.item))
      || (ev.RChanged? && s.readerSeen < s.core.signal.version
          && s' == s.(readerSeen := s.core.signal.version, reader := RRecheck))
    case RRecheck =>
      ev.RGo? && s' == s.(reader := if s.core.signal.value.Abort? then RDropControl else RTop)
    case RFlushRequest =>
      ev.RGo? && s' == s.(reader := RTop, control :=
        if s.control.pending < 4 then s.control.(pending := s.control.pending + 1) else s.control)
    case _ => false
  }

  predicate QueueInbound(s: State, ev: ReaderEvent, s': State) {
    match s.reader
    case RGate(m) =>
      ev.RGo? && s' == if !s.core.signal.value.Running? then Discard(s).(reader := RTop)
                       else if SizeOf(m) > U32_MAX then Discard(s).(reader := RJudge(true, ENDED))
                       else s.(reader := RAcquire(m))
    case RAcquire(m) =>
      || (ev.RGo? && SizeOf(m) <= s.inq.free
          && s' == s.(reader := REnqueue(m), inq := AcquireIn(s.inq, SizeOf(m))))
      || (ev.RChanged? && s.readerSeen < s.core.signal.version
          && s' == Discard(s).(readerSeen := s.core.signal.version, reader := RTop))
    case REnqueue(m) =>
      || (ev.RGo? && s.inq.gone
          && s' == Discard(s).(reader := RJudge(true, ENDED), inq := ReleaseIn(s.inq, SizeOf(m))))
      || (ev.RGo? && !s.inq.gone && |s.inq.queue| < s.cfg.maxQueue
          && s' == s.(reader := RTop, inq := EnqueueIn(s.inq, m), log := s.log.(kept := s.log.kept + [m])))
      || (ev.RChanged? && s.readerSeen < s.core.signal.version
          && s' == Discard(s).(readerSeen := s.core.signal.version, reader := RTop, inq := ReleaseIn(s.inq, SizeOf(m))))
    case _ => false
  }

  // The close-frame branch, and the judgement on any other end.
  predicate ReaderJudges(s: State, ev: ReaderEvent, s': State) {
    match s.reader
    case RLoadClosing(frame) => ev.RGo? && s' == s.(reader := RStoreClosing(frame, s.core.closing))
    case RStoreClosing(frame, local) =>
      ev.RGo? && s' == SetVerdict(s.(core := StoreClosing(s.core)), PeerFrame(frame, local))
                       .(reader := RPublishPeer(ClassifyClose(frame, local)))
    case RJudge(orderly, failure) =>
      ev.RGo? && s' == if s.core.closing && orderly
                       then SetVerdict(s, OrderlyEnd).(reader := RPublishPeer(ClosedOk(LOCAL_NORMAL)))
                       else SetVerdict(s, BrokenEnd).(reader := RPublishFailure(failure))
    case _ => false
  }

  predicate FinishPeerClose(s: State, ev: ReaderEvent, s': State) {
    match s.reader
    case RPublishPeer(o) =>
      ev.RGo? && s' == SetState(s, PublishPeerClosed(s.core.state.value, o)).(reader := RSignalPeer(o))
    case RSignalPeer(o) =>
      ev.RGo? && s' == SetSignal(s, SignalPeerClose(s.core.signal.value)).(reader := RArm(o))
    case RArm(o) =>
      ev.RGo? && s' == s.(reader := RWaitCheck(o, s.core.now + s.cfg.closeTimeout, s.core.state.version))
    case _ => false
  }

  // The bounded wait for somebody to publish the terminal state; a change that
  // is there wins over a timer that is due.
  predicate ReaderWaits(s: State, ev: ReaderEvent, s': State) {
    match s.reader
    case RWaitCheck(o, deadline, seen) =>
      ev.RGo? && s' == s.(reader := if s.core.state.value.Closed? then RDropControl else RWaitPark(o, deadline, seen))
    case RWaitPark(o, deadline, seen) =>
      || (ev.RChanged? && seen < s.core.state.version
          && s' == s.(reader := RWaitCheck(o, deadline, s.core.state.version)))
      || (ev.RExpired? && deadline <= s.core.now && s.core.state.version <= seen
         && s' == s.(reader := RLateTerminal(o)))
    case RLateTerminal(o) =>
      ev.RGo? && s' == SetState(s, PublishTerminal(s.core.state.value, o)).(reader := RLateAbort)
    case RLateAbort => ev.RGo? && s' == AbortWriter(s).(reader := RDropControl)
    case _ => false
  }

  predicate FinishReaderFailure(s: State, ev: ReaderEvent, s': State) {
    match s.reader
    case RPublishFailure(e) =>
      ev.RGo? && s' == SetState(s, PublishTerminal(s.core.state.value, e)).(reader := RSignalFailure)
    case RSignalFailure =>
      ev.RGo? && s' == SetSignal(s, SignalAbort(s.core.signal.value)).(reader := RAbortWriter)
    case RAbortWriter => ev.RGo? && s' == AbortWriter(s).(reader := RDropControl)
    case _ => false
  }

  // The task ends: its locals go first, its guard last.
  predicate ReaderDrops(s: State, ev: ReaderEvent, s': State) {
    match s.reader
    case RDropControl => ev.RGo? && s' == s.(control := s.control.(closed := true), reader := RDropInbound)
    case RDropInbound => ev.RGo? && s' == s.(inq := s.inq.(closed := true), reader := RDropTransport)
    case RDropTransport => ev.RGo? && s' == s.(reader := RDropGuard)
    case RDropGuard => ev.RGo? && s' == SetTasks(s, Less(s.core.tasks.value)).(reader := RDone)
    case _ => false
  }

  predicate ReaderStep(s: State, ev: ReaderEvent, s': State) {
    || ReaderReads(s, ev, s')
    || QueueInbound(s, ev, s')
    || ReaderJudges(s, ev, s')
    || FinishPeerClose(s, ev, s')
    || ReaderWaits(s, ev, s')
    || FinishReaderFailure(s, ev, s')
    || ReaderDrops(s, ev, s')
    || (ev.RAborted? && s.core.readerAbort && ReaderParked(s.reader) && s' == ReaderUnwinds(s))
  }

  // ----- the writer -----

  datatype WriterEvent =
    | WGo
    | WTakeControl
    | WControlClosed
    | WTakeOutbound
    | WOutboundClosed
    | WIdle
    | WIoOk
    | WIoError(text: string)
    | WAborted

  predicate WriterParked(w: Writer) {
    w.WPoll? || w.WFlush? || w.WWrite? || w.WSendClose? || w.WHandshakePark? || w.WCloseFlush?
  }

  function WriterUnwinds(s: State): State {
    s.(writer := if s.writer.WWrite? then WDropCommand(s.writer.c) else WShut)
  }

  const READER_STOPPED := Transport("connection reader stopped unexpectedly")
  const FLUSH_FAILED := Transport("WebSocket control flush failed")

  // Neither queue yields anything, not even that it is closed.
  predicate NothingToServe(s: State) {
    && s.control == Control(0, false)
    && s.outq.queue == [] && !(s.outq.reserved == 0 && s.outq.abandoned)
  }

  // The biased select: the signal first, then one queue or the other.
  predicate WriterServes(s: State, ev: WriterEvent, s': State) {
    match s.writer
    case WPoll =>
      ev.WGo? && s' == if s.writerSeen < s.core.signal.version
                       then s.(writerSeen := s.core.signal.version, writer := WReadSignal)
                       else s.(writer := WPollQueues)
    case WPollQueues =>
      || (ev.WTakeControl? && s.control.pending > 0
          && s' == s.(control := s.control.(pending := s.control.pending - 1), writer := WFlush))
      || (ev.WControlClosed? && s.control == Control(0, true) && s' == s.(writer := WFail(READER_STOPPED, None)))
      || (ev.WTakeOutbound? && s.outq.queue != []
          && s' == s.(outq := Dequeue(s.outq), writer := WWrite(s.outq.queue[0]),
                      log := s.log.(wire := s.log.wire + [DataFrame(s.outq.queue[0].id)])))
      || (ev.WOutboundClosed? && s.outq.queue == [] && s.outq.reserved == 0 && s.outq.abandoned
          && s' == s.(writer := WShut))
      || (ev.WIdle? && NothingToServe(s) && s' == s.(writer := WPoll))
    case WFlush =>
      || (ev.WIoOk? && s' == s.(writer := WPoll))
      || (ev.WIoError? && s' == s.(writer := WFail(FLUSH_FAILED, None)))
    case WWrite(c) =>
      || (ev.WIoOk? && s' == s.(writer := WReplyOk(c)))
      || (ev.WIoError? && s' == s.(writer := WFail(Transport("WebSocket send failed: " + ev.text), Some(c))))
    case WReplyOk(c) =>
      ev.WGo? && s' == s.(outq := Answer(s.outq, c.id, Delivered), writer := WReleaseOk(c),
        log := s.log.(answered := s.log.answered + [c.id],
                      lateAnswers := s.log.lateAnswers + if s.core.signal.value.Running? then 0 else 1))
    case WReleaseOk(c) => ev.WGo? && s' == s.(outq := Release(s.outq, c.size), writer := WPoll)
    case _ => false
  }

  // What the loop does with a signal, before and after close_writer.
  predicate WriterHeeds(s: State, ev: WriterEvent, s': State) {
    match s.writer
    case WReadSignal =>
      ev.WGo? && s' == (
        match s.core.signal.value
        case Running => s.(writer := WPoll)
        case Abort => s.(writer := WShut)
        case LocalClose => s.(writer := WSendClose, log := s.log.(wire := s.log.wire + [CloseFrameOut]))
        case PeerClose => s.(writer := WCloseFlush))
    case WReadPeer =>
      ev.WGo? && s' == s.(writer :=
        if s.core.state.value.PeerClosed? then WPublishPeer(s.core.state.value.outcome) else WShut)
    case WPublishPeer(o) =>
      ev.WGo? && s' == SetState(s, PublishTerminal(s.core.state.value, o)).(writer := WShut)
    case _ => false
  }

  predicate CloseWriter(s: State, ev: WriterEvent, s': State) {
    match s.writer
    case WSendClose =>
      || (ev.WIoOk? && s' == s.(writer := WHandshake))
      || (ev.WIoError? && s' == s.(writer := WFail(Transport("WebSocket close failed: " + ev.text), None)))
    case WHandshake =>
      ev.WGo? && s' == s.(writer := if s.core.signal.value.LocalClose? then WHandshakePark else WHandshakeEnd)
    case WHandshakePark =>
      ev.WGo? && s.writerSeen < s.core.signal.version
      && s' == s.(writerSeen := s.core.signal.version, writer := WHandshake)
    case WHandshakeEnd =>
      ev.WGo? && s' == s.(writer := if s.core.signal.value.Abort? then WReadPeer else WCloseFlush)
    case WCloseFlush =>
      || (ev.WIoOk? && s' == s.(writer := WReadPeer))
      || (ev.WIoError? && s' == s.(writer := WFail(Transport("WebSocket close failed: " + ev.text), None)))
    case _ => false
  }

  // Failure, and the end of the task.
  predicate WriterLeaves(s: State, ev: WriterEvent, s': State) {
    match s.writer
    case WFail(e, held) =>
      ev.WGo? && s' == SetState(s, PublishWriterFailure(s.core.state.value, e))
                       .(writer := WFailSignal(FailureValue(s.core.state.value, e), held))
    case WFailSignal(terminal, held) =>
      ev.WGo? && s' == SetSignal(s, SignalAbort(s.core.signal.value))
                       .(writer := if held.Some? then WReplyErr(held.value, terminal) else WShut)
    case WReplyErr(c, terminal) =>
      ev.WGo? && s' == s.(outq := Answer(s.outq, c.id, Refused(terminal)), writer := WRelease(c))
    case WDropCommand(c) =>
      ev.WGo? && s' == s.(outq := Answer(s.outq, c.id, Dropped), writer := WRelease(c))
    case WRelease(c) => ev.WGo? && s' == s.(outq := Release(s.outq, c.size), writer := WShut)
    case WShut => ev.WGo? && s' == s.(outq := Shut(s.outq), writer := WDrain)
    case WDrain =>
      ev.WGo? && s' == if s.outq.queue == [] then s.(writer := WDropTransport) else s.(outq := DropHead(s.outq))
    case WDropTransport => ev.WGo? && s' == s.(writer := WDropGuard)
    case WDropGuard => ev.WGo? && s' == SetTasks(s, Less(s.core.tasks.value)).(writer := WDone)
    case _ => false
  }

  predicate WriterStep(s: State, ev: WriterEvent, s': State) {
    || WriterServes(s, ev, s')
    || WriterHeeds(s, ev, s')
    || CloseWriter(s, ev, s')
    || WriterLeaves(s, ev, s')
    || (ev.WAborted? && s.core.writerAbort && WriterParked(s.writer) && s' == WriterUnwinds(s))
  }

  // ----- close watchdogs -----

  datatype DogEvent = DGo | DWoken | DExpired

  predicate DogStep(s: State, k: nat, ev: DogEvent, s': State)
    requires k < |s.dogs|
  {
    match s.dogs[k]
    case DStart(seen) =>
      ev.DGo? && s' == s.(dogs := s.dogs[k := DCheck(seen, s.core.now + s.cfg.closeTimeout)])
    case DCheck(seen, deadline) =>
      ev.DGo? && s' == s.(dogs := s.dogs[k := if s.core.state.value.Closed? then DDropGuard else DPark(seen, deadline)])
    case DPark(seen, deadline) =>
      || (ev.DWoken? && seen < s.core.state.version
          && s' == s.(dogs := s.dogs[k := DCheck(s.core.state.version, deadline)]))
      || (ev.DExpired? && deadline <= s.core.now && s' == s.(dogs := s.dogs[k := DFire]))
    case DFire =>
      ev.DGo? && s' == SetState(s, PublishCloseTimeout(s.core.state.value)).(dogs := s.dogs[k := DAbortReader])
    case DAbortReader => ev.DGo? && s' == AbortReader(s).(dogs := s.dogs[k := DAbortWriter])
    case DAbortWriter => ev.DGo? && s' == AbortWriter(s).(dogs := s.dogs[k := DDropGuard])
    case DDropGuard => ev.DGo? && s' == SetTasks(s, Less(s.core.tasks.value)).(dogs := s.dogs[k := DDone])
    case DDone => false
  }

  // ----- callers -----

  datatype CallEvent = Go | Cancel | Mismatch

  function SetCaller(s: State, i: nat, c: Caller): State
    requires i < |s.callers|
  {
    s.(callers := s.callers[i := c])
  }

  // close(), around begin_close
  predicate CloseStep(s: State, i: nat, ev: CallEvent, s': State)
    requires i < |s.callers|
  {
    match s.callers[i]
    case CRead =>
      ev.Go? && s' == SetCaller(s, i,
        if s.core.state.value.Closed? then CTasks(s.core.state.value.outcome, 0) else CGuard)
    case CCheck(seen) =>
      ev.Go? && s' == SetCaller(s, i,
        if s.core.state.value.Closed? then CTasks(s.core.state.value.outcome, 0) else CPark(seen))
    case CPark(seen) =>
      || (ev.Go? && seen < s.core.state.version && s' == SetCaller(s, i, CCheck(s.core.state.version)))
      || (ev.Cancel? && s' == SetCaller(s, i, CloseCancelled))
    case CTasks(e, seen) =>
      ev.Go? && s' == SetCaller(s, i, if s.core.tasks.value == 0 then CloseDone(e) else CTasksPark(e, seen))
    case CTasksPark(e, seen) =>
      || (ev.Go? && seen < s.core.tasks.version && s' == SetCaller(s, i, CTasks(e, s.core.tasks.version)))
      || (ev.Cancel? && s' == SetCaller(s, i, CloseCancelled))
    case _ => false
  }

  predicate BeginCloseStep(s: State, i: nat, ev: CallEvent, s': State)
    requires i < |s.callers|
  {
    match s.callers[i]
    case CGuard => ev.Go? && s' == SetCaller(SetTasks(s, s.core.tasks.value + 1), i, CSwap)
    case CSwap =>
      ev.Go? && s' == SetCaller(s.(core := BeginClosing(s.core)), i, if s.core.closing then CDropGuard else CBegin)
    case CBegin =>
      ev.Go? && s' == SetCaller(SetState(s, BeginClose(s.core.state.value)), i,
                                if s.core.state.value.Open? then CSignal else CDropGuard)
    case CSignal => ev.Go? && s' == SetCaller(SetSignal(s, SignalLocalClose(s.core.signal.value)), i, CTimer)
    case CTimer =>
      ev.Go? && s' == SetCaller(s.(core := s.core.(timerStarted := true)), i,
                                if s.core.timerStarted then CDropGuard else CSpawn)
    case CSpawn => ev.Go? && s' == SetCaller(s.(dogs := s.dogs + [DStart(s.core.state.version)]), i, CCheck(0))
    case CDropGuard => ev.Go? && s' == SetCaller(SetTasks(s, Less(s.core.tasks.value)), i, CCheck(0))
    case _ => false
  }

  const ABANDONED := Transport("connection was abandoned")

  function Abandon(s: State): State {
    var t := SetState(s, PublishTerminal(s.core.state.value, ABANDONED));
    t.(core := t.core.(abandoned := true))
  }

  predicate AborterStep(s: State, i: nat, ev: CallEvent, s': State)
    requires i < |s.callers|
  {
    ev.Go? &&
    match s.callers[i]
    case AStore(d) => s' == SetCaller(s.(core := BeginClosing(s.core)), i, APublish(d))
    case APublish(d) =>
      s' == SetCaller(Abandon(s), i, ASignal(d))
    case ASignal(d) => s' == SetCaller(SetSignal(s, SignalAbort(s.core.signal.value)), i, AReader(d))
    case AReader(d) => s' == SetCaller(AbortReader(s), i, AWriter(d))
    case AWriter(d) => s' == SetCaller(AbortWriter(s), i, if d then ADropInbound else AbortDone)
    case ADropInbound => s' == SetCaller(s.(inq := Forsake(s.inq)), i, ADropOutbound)
    case ADropOutbound => s' == SetCaller(s.(outq := s.outq.(abandoned := true)), i, AbortDone)
    case _ => false
  }

  const TOO_LARGE := ResourceLimit("message exceeds max_message_size")
  const TOO_WIDE := ResourceLimit("message byte count exceeds the supported budget")
  const NO_BYTES := ResourceLimit("outbound byte budget is exhausted; retry after an accepted send completes")
  const NO_SLOT := ResourceLimit("outbound item queue is full; retry after an accepted send completes")
  const CHANGED := Transport("outbound message changed after capacity admission")

  // try_admit_outbound
  predicate AdmitStep(s: State, i: nat, ev: CallEvent, s': State)
    requires i < |s.callers|
  {
    match s.callers[i]
    case SCheck(size) =>
      ev.Go? && s' == SetCaller(s, i,
        if !s.core.state.value.Open? then SendDone(SendRefused(TerminalError(s.core.state.value)))
        else if size > s.cfg.maxMessageSize then SendDone(SendRefused(TOO_LARGE))
        else SBytes(size))
    case SBytes(size) =>
      ev.Go? && s' == if size > U32_MAX then SetCaller(s, i, SendDone(SendRefused(TOO_WIDE)))
                      else if size > s.outq.free then SetCaller(s, i, SendDone(SendRefused(NO_BYTES)))
                      else SetCaller(s.(outq := Acquire(s.outq, size)), i, SReserve(size))
    case SReserve(size) =>
      ev.Go? && s' == if s.outq.closed then SetCaller(s, i, STerminal(size))
                      else if !HasSlot(s.outq, s.cfg.maxQueue) then SetCaller(s, i, SRefund(size, NO_SLOT))
                      else SetCaller(s.(outq := Reserve(s.outq)), i, SAdmitted(size))
    case STerminal(size) => ev.Go? && s' == SetCaller(s, i, SRefund(size, TerminalError(s.core.state.value)))
    case SRefund(size, e) => ev.Go? && s' == SetCaller(s.(outq := Release(s.outq, size)), i, SendDone(SendRefused(e)))
    case _ => false
  }

  // send_admitted, or dropping the admission
  predicate SendStep(s: State, i: nat, ev: CallEvent, s': State)
    requires i < |s.callers|
  {
    match s.callers[i]
    case SAdmitted(size) =>
      || (ev.Go? && s.outq.reserved > 0
          && s' == SetCaller(s.(outq := Enqueue(s.outq, Command(i, size)), log := s.log.(queued := s.log.queued + [i])),
                             i, SWaiting))
      || (ev.Cancel? && s' == SetCaller(s.(outq := Release(s.outq, size)), i, SUnreserve(SendCancelled)))
      || (ev.Mismatch? && s' == SetCaller(s.(outq := Release(s.outq, size)), i, SUnreserve(SendRefused(CHANGED))))
    case SUnreserve(r) =>
      ev.Go? && s.outq.reserved > 0 && s' == SetCaller(s.(outq := Unreserve(s.outq)), i, SendDone(r))
    case SWaiting =>
      || (ev.Go? && i in s.outq.replies && s' == SetCaller(s, i,
            match s.outq.replies[i]
            case Delivered => SendDone(SentOk)
            case Refused(e) => SendDone(SendFailed(e))
            case Dropped => SLost))
      || (ev.Cancel? && s' == SetCaller(s, i, SendDone(SendCancelled)))
    case SLost => ev.Go? && s' == SetCaller(s, i, SendDone(SendFailed(TerminalError(s.core.state.value))))
    case _ => false
  }

  const BUSY := Concurrency("only one receive operation may be active per connection")

  // The ReceiveGuard flag and the mutex around the receiver.
  predicate ClaimStep(s: State, i: nat, ev: CallEvent, s': State)
    requires i < |s.callers|
  {
    match s.callers[i]
    case VClaim =>
      ev.Go? && s' == if s.inq.active then SetCaller(s, i, ReceiveDone(ReceiveRejected(BUSY)))
                      else SetCaller(s.(inq := s.inq.(active := true)), i, VLock)
    case VLock =>
      || (ev.Go? && !s.inq.locked && s' == SetCaller(s.(inq := s.inq.(locked := true)), i, VRecv))
      || (ev.Cancel? && s' == SetCaller(s, i, VUnclaim(ReceiveCancelled)))
    case VUnlock(r) => ev.Go? && s' == SetCaller(s.(inq := s.inq.(locked := false)), i, VUnclaim(r))
    case VUnclaim(r) =>
      ev.Go? && s' == SetCaller(
        s.(inq := s.inq.(active := false),
           log := if r.ReceivedOk? then s.log.(returned := s.log.returned + [r.m]) else s.log),
        i, ReceiveDone(r))
    case _ => false
  }

  // recv() and what follows it
  predicate ReceiveStep(s: State, i: nat, ev: CallEvent, s': State)
    requires i < |s.callers|
  {
    match s.callers[i]
    case VRecv =>
      || (ev.Go? && s.inq.queue != []
          && s' == SetCaller(s.(inq := DequeueIn(s.inq), log := s.log.(popped := s.log.popped + [s.inq.queue[0]])),
                             i, VRelease(s.inq.queue[0])))
      || (ev.Go? && s.inq.queue == [] && s.inq.closed && s' == SetCaller(s, i, VTerminal))
      || (ev.Cancel? && s' == SetCaller(s, i, VUnlock(ReceiveCancelled)))
    case VTerminal => ev.Go? && s' == SetCaller(s, i, VUnlock(ReceiveFailed(TerminalError(s.core.state.value))))
    case VRelease(m) => ev.Go? && s' == SetCaller(s.(inq := ReleaseIn(s.inq, SizeOf(m))), i, VUnlock(ReceivedOk(m)))
    case _ => false
  }

  predicate CallerFinished(c: Caller) {
    c.CloseDone? || c.CloseCancelled? || c.AbortDone? || c.SendDone? || c.ReceiveDone?
  }

  predicate CallerParked(c: Caller) {
    c.CPark? || c.CTasksPark? || c.SAdmitted? || c.SWaiting? || c.VLock? || c.VRecv?
  }

  // A call starts here.
  predicate CallerFresh(c: Caller) {
    c.CRead? || c == AStore(false) || c.SCheck? || c.VClaim?
  }

  // ----- the clock -----

  // Nobody is between two awaits, and no timer is due or about to be set.
  predicate Quiet(s: State) {
    && (ReaderParked(s.reader) || s.reader.RDone?)
    && (s.reader.RWaitPark? ==> s.core.now < s.reader.deadline)
    && (WriterParked(s.writer) || s.writer.WDone?)
    && (forall k :: 0 <= k < |s.dogs| ==> s.dogs[k].DDone? || (s.dogs[k].DPark? && s.core.now < s.dogs[k].deadline))
    && (forall i :: 0 <= i < |s.callers| ==> CallerFinished(s.callers[i]) || CallerParked(s.callers[i]))
  }

  // ----- the whole system -----

  datatype Action =
    | ReaderActs(re: ReaderEvent)
    | WriterActs(we: WriterEvent)
    | DogActs(k: nat, de: DogEvent)
    | CallerActs(i: nat, ce: CallEvent)
    | CallStarts(call: Caller)
    | HandleDrops
    | Ticks
    | StrandedDrops(at: nat)

  // The last Arc goes away only when no call is in flight; Drop then aborts.
  predicate Starts(s: State, a: Action, s': State) {
    match a
    case CallStarts(c) => s.core.handle && CallerFresh(c) && s' == s.(callers := s.callers + [c])
    case HandleDrops =>
      && s.core.handle && (forall i :: 0 <= i < |s.callers| ==> CallerFinished(s.callers[i]))
      && s' == s.(core := s.core.(handle := false), callers := s.callers + [AStore(true)])
    case _ => false
  }

  predicate Ambient(s: State, a: Action, s': State) {
    match a
    case Ticks => Quiet(s) && s' == s.(core := s.core.(now := s.core.now + 1))
    // A command sent after the writer's receiver is gone is dropped at some
    // point with its channel.
    case StrandedDrops(k) =>
      && (s.writer.WDropTransport? || s.writer.WDropGuard? || s.writer.WDone?)
      && k < |s.outq.queue| && s' == s.(outq := DropAt(s.outq, k))
    case _ => false
  }

  predicate Next(s: State, a: Action, s': State) {
    match a
    case ReaderActs(ev) => ReaderStep(s, ev, s')
    case WriterActs(ev) => WriterStep(s, ev, s')
    case DogActs(k, ev) => k < |s.dogs| && DogStep(s, k, ev, s')
    case CallerActs(i, ev) =>
      i < |s.callers| && (
        || CloseStep(s, i, ev, s')
        || BeginCloseStep(s, i, ev, s')
        || AborterStep(s, i, ev, s')
        || AdmitStep(s, i, ev, s')
        || SendStep(s, i, ev, s')
        || ClaimStep(s, i, ev, s')
        || ReceiveStep(s, i, ev, s'))
    case _ => Starts(s, a, s') || Ambient(s, a, s')
  }

  // A finite run: |acts| steps through |acts| + 1 states.
  predicate Run(states: seq<State>, acts: seq<Action>) {
    && |states| == |acts| + 1
    && Init(states[0])
    && forall k :: 0 <= k < |acts| ==> Next(states[k], acts[k], states[k + 1])
  }
}
