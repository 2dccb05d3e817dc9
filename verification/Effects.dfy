// Summaries of the steps of module Machine, one task at a time: what a program
// point does to the core, where it can lead, and what it leaves alone. The
// invariants of the other modules are proved from these.
module Effects {
  import opened Errors
  import opened Cells
  import opened Lanes
  import opened Machine

  // ----- the reader -----

  function ReaderEffect(c: Core, r: Reader): (d: Core)
    ensures d.handle == c.handle && d.now == c.now && d.begun == c.begun
    ensures d.closing == (c.closing || r.RStoreClosing?)
    ensures d.since == if r.RStoreClosing? && !c.closing then Some(c.now) else c.since
    ensures d.readerAbort == c.readerAbort && d.writerAbort == (c.writerAbort || r.RLateAbort? || r.RAbortWriter?)
    ensures r.RPublishPeer? || r.RLateTerminal? || r.RPublishFailure? || d.state == c.state
    ensures r.RSignalPeer? || r.RSignalFailure? || d.signal == c.signal
  {
    match r
    case RStoreClosing(frame, local) => StoreClosing(c).(verdict := Some(PeerFrame(frame, local)))
    case RJudge(orderly, _) => c.(verdict := Some(if c.closing && orderly then OrderlyEnd else BrokenEnd))
    case RPublishPeer(o) => c.(state := PutState(c.state, PublishPeerClosed(c.state.value, o)))
    case RSignalPeer(_) => c.(signal := PutSignal(c.signal, SignalPeerClose(c.signal.value)))
    case RLateTerminal(o) => c.(state := PutState(c.state, PublishTerminal(c.state.value, o)))
    case RLateAbort => c.(writerAbort := true)
    case RPublishFailure(e) => c.(state := PutState(c.state, PublishTerminal(c.state.value, e)))
    case RSignalFailure => c.(signal := PutSignal(c.signal, SignalAbort(c.signal.value)))
    case RAbortWriter => c.(writerAbort := true)
    case RDropGuard => c.(tasks := PutCount(c.tasks, Less(c.tasks.value)))
    case _ => c
  }

  ghost predicate ReaderEdge(timeout: nat, c: Core, r: Reader, r': Reader) {
    match r
    case RUnstarted => r'.RTop? || Unwound(c, r')
    case RTop => if c.signal.value.Abort? then r'.RDropControl? else r'.RSelect?
    case RSelect =>
      r'.RRecheck? || r'.RGate? || r'.RLoadClosing? || r'.RFlushRequest? || r'.RTop? || Breaks(r') || Unwound(c, r')
    case RRecheck => if c.signal.value.Abort? then r'.RDropControl? else r'.RTop?
    case RFlushRequest => r'.RTop?
    case RGate(m) => if c.signal.value.Running? then r' == RAcquire(m) || Breaks(r') else r'.RTop?
    case RAcquire(m) => r' == REnqueue(m) || r'.RTop? || Unwound(c, r')
    case REnqueue(m) => Breaks(r') || r'.RTop? || Unwound(c, r')
    case RLoadClosing(frame) => r' == RStoreClosing(frame, c.closing)
    case RStoreClosing(frame, local) => r' == RPublishPeer(ClassifyClose(frame, local))
    case RJudge(orderly, e) =>
      r' == if c.closing && orderly then RPublishPeer(ClosedOk(LOCAL_NORMAL)) else RPublishFailure(e)
    case RPublishPeer(o) => r' == RSignalPeer(o)
    case RSignalPeer(o) => r' == RArm(o)
    case RArm(o) => r' == RWaitCheck(o, c.now + timeout, c.state.version)
    case RWaitCheck(o, d, seen) => r' == if c.state.value.Closed? then RDropControl else RWaitPark(o, d, seen)
    case RWaitPark(o, d, seen) =>
      || (r' == RWaitCheck(o, d, c.state.version) && seen < c.state.version)
      || (r' == RLateTerminal(o) && d <= c.now)
      || Unwound(c, r')
    case RLateTerminal(_) => r'.RLateAbort?
    case RLateAbort => r'.RDropControl?
    case RPublishFailure(_) => r'.RSignalFailure?
    case RSignalFailure => r'.RAbortWriter?
    case RAbortWriter => r'.RDropControl?
    case RDropControl => r'.RDropInbound?
    case RDropInbound => r'.RDropTransport?
    case RDropTransport => r'.RDropGuard?
    case RDropGuard => r'.RDone?
    case RDone => false
  }

  ghost predicate Breaks(r': Reader) { r'.RJudge? && r'.failure.Transport? }

  ghost predicate Unwound(c: Core, r': Reader) { r'.RDropControl? && c.readerAbort }

  // The reader leaves the writer, the watchdogs, the calls and the outbound
  // lane alone.
  ghost predicate ReaderSummary(s: State, s': State) {
    && s'.core == ReaderEffect(s.core, s.reader)
    && ReaderEdge(s.cfg.closeTimeout, s.core, s.reader, s'.reader)
    && s'.cfg == s.cfg && s'.writer == s.writer && s'.writerSeen == s.writerSeen
    && s'.dogs == s.dogs && s'.callers == s.callers && s'.outq == s.outq
    && (s'.readerSeen == s.readerSeen
        || (s'.readerSeen == s.core.signal.version && (s'.reader.RRecheck? || s'.reader.RTop?)))
    && (s'.control.closed <==> s.control.closed || s.reader.RDropControl?)
    && (s'.inq.closed <==> s.inq.closed || s.reader.RDropInbound?)
    && s'.inq.gone == s.inq.gone && s'.inq.active == s.inq.active && s'.inq.locked == s.inq.locked
  }

  lemma ReaderReadsSummary(s: State, ev: ReaderEvent, s': State)
    requires ReaderReads(s, ev, s')
    ensures ReaderSummary(s, s')
  {
    match s.reader { case RUnstarted => case RTop => case RSelect => case RRecheck => case _ => }
  }

  lemma QueueInboundSummary(s: State, ev: ReaderEvent, s': State)
    requires QueueInbound(s, ev, s')
    ensures ReaderSummary(s, s')
  {
  }

  lemma ReaderJudgesSummary(s: State, ev: ReaderEvent, s': State)
    requires ReaderJudges(s, ev, s')
    ensures ReaderSummary(s, s')
  {
  }

  lemma FinishPeerCloseSummary(s: State, ev: ReaderEvent, s': State)
    requires FinishPeerClose(s, ev, s')
    ensures ReaderSummary(s, s')
  {
  }

  lemma ReaderWaitsSummary(s: State, ev: ReaderEvent, s': State)
    requires ReaderWaits(s, ev, s')
    ensures ReaderSummary(s, s')
  {
  }

  lemma FinishReaderFailureSummary(s: State, ev: ReaderEvent, s': State)
    requires FinishReaderFailure(s, ev, s')
    ensures ReaderSummary(s, s')
  {
  }

  lemma ReaderDropsSummary(s: State, ev: ReaderEvent, s': State)
    requires ReaderDrops(s, ev, s')
    ensures ReaderSummary(s, s')
  {
  }

  lemma ReaderSummarized(s: State, ev: ReaderEvent, s': State)
    requires ReaderStep(s, ev, s')
    ensures ReaderSummary(s, s')
  {
    if ev.RAborted? && ReaderParked(s.reader) && s' == ReaderUnwinds(s) && s.core.readerAbort {
      hide ReaderReads, QueueInbound, ReaderJudges, FinishPeerClose, ReaderWaits, FinishReaderFailure, ReaderDrops;
    } else {
      hide ReaderReads, QueueInbound, ReaderJudges, FinishPeerClose, ReaderWaits, FinishReaderFailure, ReaderDrops;
      hide ReaderSummary;
      if ReaderReads(s, ev, s') {
        ReaderReadsSummary(s, ev, s');
      } else if QueueInbound(s, ev, s') {
        QueueInboundSummary(s, ev, s');
      } else if ReaderJudges(s, ev, s') {
        ReaderJudgesSummary(s, ev, s');
      } else if FinishPeerClose(s, ev, s') {
        FinishPeerCloseSummary(s, ev, s');
      } else if ReaderWaits(s, ev, s') {
        ReaderWaitsSummary(s, ev, s');
      } else if FinishReaderFailure(s, ev, s') {
        FinishReaderFailureSummary(s, ev, s');
      } else {
        ReaderDropsSummary(s, ev, s');
      }
    }
  }

  // ----- the writer -----

  function WriterEffect(c: Core, w: Writer): (d: Core)
    ensures d == c.(state := d.state, signal := d.signal, tasks := d.tasks)
  {
    match w
    case WPublishPeer(o) => c.(state := PutState(c.state, PublishTerminal(c.state.value, o)))
    case WFail(e, _) => c.(state := PutState(c.state, PublishWriterFailure(c.state.value, e)))
    case WFailSignal(_, _) => c.(signal := PutSignal(c.signal, SignalAbort(c.signal.value)))
    case WDropGuard => c.(tasks := PutCount(c.tasks, Less(c.tasks.value)))
    case _ => c
  }

  // Where the writer goes; a failed write is a WFail.
  ghost predicate WriterEdge(c: Core, w: Writer, w': Writer) {
    match w
    case WPoll => w'.WReadSignal? || w'.WPollQueues? || WriterUnwound(c, w, w')
    case WPollQueues => w'.WFlush? || FailsWith(w', None) || w'.WWrite? || w'.WShut? || w'.WPoll?
    case WFlush => w'.WPoll? || FailsWith(w', None) || WriterUnwound(c, w, w')
    case WWrite(cmd) => w' == WReplyOk(cmd) || FailsWith(w', Some(cmd)) || WriterUnwound(c, w, w')
    case WReplyOk(cmd) => w' == WReleaseOk(cmd)
    case WReleaseOk(_) => w'.WPoll?
    case WReadSignal =>
      (match c.signal.value
       case Running => w'.WPoll?
       case Abort => w'.WShut?
       case LocalClose => w'.WSendClose?
       case PeerClose => w'.WCloseFlush?)
    case WSendClose => w'.WHandshake? || FailsWith(w', None) || WriterUnwound(c, w, w')
    case WHandshake => if c.signal.value.LocalClose? then w'.WHandshakePark? else w'.WHandshakeEnd?
    case WHandshakePark => w'.WHandshake? || WriterUnwound(c, w, w')
    case WHandshakeEnd => if c.signal.value.Abort? then w'.WReadPeer? else w'.WCloseFlush?
    case WCloseFlush => w'.WReadPeer? || FailsWith(w', None) || WriterUnwound(c, w, w')
    case WReadPeer => if c.state.value.PeerClosed? then w' == WPublishPeer(c.state.value.outcome) else w'.WShut?
    case WPublishPeer(_) => w'.WShut?
    case WFail(e, held) => w' == WFailSignal(FailureValue(c.state.value, e), held)
    case WFailSignal(t, held) => w' == if held.Some? then WReplyErr(held.value, t) else WShut
    case WReplyErr(cmd, _) => w' == WRelease(cmd)
    case WDropCommand(cmd) => w' == WRelease(cmd)
    case WRelease(_) => w'.WShut?
    case WShut => w'.WDrain?
    case WDrain => w'.WDropTransport? || w'.WDrain?
    case WDropTransport => w'.WDropGuard?
    case WDropGuard => w'.WDone?
    case WDone => false
  }

  ghost predicate FailsWith(w': Writer, held: Option<Command>) { w'.WFail? && w'.e.Transport? && w'.held == held }

  ghost predicate WriterUnwound(c: Core, w: Writer, w': Writer) {
    c.writerAbort && w' == if w.WWrite? then WDropCommand(w.c) else WShut
  }

  ghost predicate WriterSummary(s: State, s': State) {
    && s'.core == WriterEffect(s.core, s.writer)
    && WriterEdge(s.core, s.writer, s'.writer)
    && s'.cfg == s.cfg && s'.reader == s.reader && s'.readerSeen == s.readerSeen
    && s'.dogs == s.dogs && s'.callers == s.callers && s'.inq == s.inq
    && s'.control.closed == s.control.closed
    && (if (s.writer.WPoll? && s'.writer.WReadSignal?) || (s.writer.WHandshakePark? && s'.writer.WHandshake?)
        then s.writerSeen < s.core.signal.version && s'.writerSeen == s.core.signal.version
        else s'.writerSeen == s.writerSeen)
    && (s'.outq.closed <==> s.outq.closed || s.writer.WShut?)
    && s'.outq.abandoned == s.outq.abandoned && s'.outq.reserved == s.outq.reserved
    && s'.outq.replies == Answered(s)
    && (s.writer.WPollQueues? && s'.writer.WShut? ==> s.outq.abandoned)
    && (s.writer.WPoll? && s'.writer.WPollQueues? ==> s.core.signal.version <= s.writerSeen)
  }

  // The only replies are: Ok after a write, the terminal value after a failed
  // one, and dropped ones at the end of the task.
  function Answered(s: State): map<nat, Reply> {
    match s.writer
    case WReplyOk(cmd) => s.outq.replies[cmd.id := Delivered]
    case WReplyErr(cmd, t) => s.outq.replies[cmd.id := Refused(t)]
    case WDropCommand(cmd) => s.outq.replies[cmd.id := Dropped]
    case WDrain => if s.outq.queue == [] then s.outq.replies else s.outq.replies[s.outq.queue[0].id := Dropped]
    case _ => s.outq.replies
  }

  lemma WriterServesSummary(s: State, ev: WriterEvent, s': State)
    requires WriterServes(s, ev, s')
    ensures WriterSummary(s, s')
  {
    match s.writer { case WPoll => case WPollQueues => case WFlush => case WWrite(_) => case WReplyOk(_) => case _ => }
  }

  lemma WriterHeedsSummary(s: State, ev: WriterEvent, s': State)
    requires WriterHeeds(s, ev, s')
    ensures WriterSummary(s, s')
  {
  }

  lemma CloseWriterSummary(s: State, ev: WriterEvent, s': State)
    requires CloseWriter(s, ev, s')
    ensures WriterSummary(s, s')
  {
  }

  lemma WriterLeavesSummary(s: State, ev: WriterEvent, s': State)
    requires WriterLeaves(s, ev, s')
    ensures WriterSummary(s, s')
  {
    hide PutState, PutSignal, PutCount, Less, PublishWriterFailure, SignalAbort, FailureValue;
    match s.writer {
      case WFail(_, _) => case WFailSignal(_, _) => case WReplyErr(_, _) => case WDropCommand(_) => case WRelease(_) =>
      case WShut => case WDrain => case WDropTransport => case _ =>
    }
  }

  lemma WriterSummarized(s: State, ev: WriterEvent, s': State)
    requires WriterStep(s, ev, s')
    ensures WriterSummary(s, s')
  {
    if ev.WAborted? && WriterParked(s.writer) && s' == WriterUnwinds(s) && s.core.writerAbort {
      hide WriterServes, WriterHeeds, CloseWriter, WriterLeaves;
    } else {
      hide WriterServes, WriterHeeds, CloseWriter, WriterLeaves, WriterSummary;
      if WriterServes(s, ev, s') {
        WriterServesSummary(s, ev, s');
      } else if WriterHeeds(s, ev, s') {
        WriterHeedsSummary(s, ev, s');
      } else if CloseWriter(s, ev, s') {
        CloseWriterSummary(s, ev, s');
      } else {
        WriterLeavesSummary(s, ev, s');
      }
    }
  }

  // ----- the watchdogs -----

  function DogEffect(c: Core, d: Dog): (e: Core)
    ensures e == c.(state := e.state, tasks := e.tasks, readerAbort := c.readerAbort || d.DAbortReader?,
                    writerAbort := c.writerAbort || d.DAbortWriter?)
  {
    match d
    case DFire => c.(state := PutState(c.state, PublishCloseTimeout(c.state.value)))
    case DAbortReader => c.(readerAbort := true)
    case DAbortWriter => c.(writerAbort := true)
    case DDropGuard => c.(tasks := PutCount(c.tasks, Less(c.tasks.value)))
    case _ => c
  }

  ghost predicate DogEdge(timeout: nat, c: Core, d: Dog, d': Dog) {
    match d
    case DStart(seen) => d' == DCheck(seen, c.now + timeout)
    case DCheck(seen, t) => d' == if c.state.value.Closed? then DDropGuard else DPark(seen, t)
    case DPark(seen, t) => (d' == DCheck(c.state.version, t) && seen < c.state.version) || (d'.DFire? && t <= c.now)
    case DFire => d'.DAbortReader?
    case DAbortReader => d'.DAbortWriter?
    case DAbortWriter => d'.DDropGuard?
    case DDropGuard => d'.DDone?
    case DDone => false
  }

  ghost predicate DogSummary(s: State, k: nat, s': State) {
    && k < |s.dogs| && |s'.dogs| == |s.dogs|
    && s' == s.(core := DogEffect(s.core, s.dogs[k]), dogs := s.dogs[k := s'.dogs[k]])
    && DogEdge(s.cfg.closeTimeout, s.core, s.dogs[k], s'.dogs[k])
  }

  lemma DogSummarized(s: State, k: nat, ev: DogEvent, s': State)
    requires k < |s.dogs| && DogStep(s, k, ev, s')
    ensures DogSummary(s, k, s')
  {
  }

  // ----- the calls: close(), begin_close and abort() -----

  function CallerEffect(c: Core, p: Caller): (d: Core)
    ensures d.handle == c.handle && d.now == c.now && d.verdict == c.verdict
    ensures d.closing == (c.closing || p.CSwap? || p.AStore?) && d.begun == (c.begun || p.CSwap? || p.AStore?)
    ensures d.since == if (p.CSwap? || p.AStore?) && !c.closing then Some(c.now) else c.since
    ensures d.timerStarted == (c.timerStarted || p.CTimer?) && d.abandoned == (c.abandoned || p.APublish?)
    ensures p.CBegin? || p.APublish? || d.state == c.state
    ensures p.CSignal? || p.ASignal? || d.signal == c.signal
    ensures p.CGuard? || p.CDropGuard? || d.tasks == c.tasks
    ensures d.readerAbort == (c.readerAbort || p.AReader?) && d.writerAbort == (c.writerAbort || p.AWriter?)
  {
    match p
    case CGuard => c.(tasks := PutCount(c.tasks, c.tasks.value + 1))
    case CSwap => BeginClosing(c)
    case CBegin => c.(state := PutState(c.state, BeginClose(c.state.value)))
    case CSignal => c.(signal := PutSignal(c.signal, SignalLocalClose(c.signal.value)))
    case CTimer => c.(timerStarted := true)
    case CDropGuard => c.(tasks := PutCount(c.tasks, Less(c.tasks.value)))
    case AStore(_) => BeginClosing(c)
    case APublish(_) => c.(state := PutState(c.state, PublishTerminal(c.state.value, ABANDONED)), abandoned := true)
    case ASignal(_) => c.(signal := PutSignal(c.signal, SignalAbort(c.signal.value)))
    case AReader(_) => c.(readerAbort := true)
    case AWriter(_) => c.(writerAbort := true)
    case _ => c
  }

  lemma CallerEffects(c: Core, p: Caller)
    ensures p.CGuard? ==> CallerEffect(c, p) == c.(tasks := PutCount(c.tasks, c.tasks.value + 1))
    ensures p.CSwap? || p.AStore? ==> CallerEffect(c, p) == BeginClosing(c)
    ensures p.CBegin? ==> CallerEffect(c, p) == c.(state := PutState(c.state, BeginClose(c.state.value)))
    ensures p.CSignal? ==> CallerEffect(c, p) == c.(signal := PutSignal(c.signal, SignalLocalClose(c.signal.value)))
    ensures p.CTimer? ==> CallerEffect(c, p) == c.(timerStarted := true)
    ensures p.CDropGuard? ==> CallerEffect(c, p) == c.(tasks := PutCount(c.tasks, Less(c.tasks.value)))
    ensures p.APublish? ==>
              CallerEffect(c, p)
              == c.(state := PutState(c.state, PublishTerminal(c.state.value, ABANDONED)), abandoned := true)
    ensures p.ASignal? ==> CallerEffect(c, p) == c.(signal := PutSignal(c.signal, SignalAbort(c.signal.value)))
    ensures p.AReader? ==> CallerEffect(c, p) == c.(readerAbort := true)
    ensures p.AWriter? ==> CallerEffect(c, p) == c.(writerAbort := true)
  {
  }

  lemma CallerIdles(c: Core, p: Caller)
    requires !p.CGuard? && !p.CSwap? && !p.CBegin? && !p.CSignal? && !p.CTimer? && !p.CDropGuard?
    requires !p.AStore? && !p.APublish? && !p.ASignal? && !p.AReader? && !p.AWriter?
    ensures CallerEffect(c, p) == c
  {
  }

  ghost predicate Controls(p: Caller) {
    || p.CRead? || p.CGuard? || p.CSwap? || p.CBegin? || p.CSignal? || p.CTimer? || p.CSpawn? || p.CDropGuard?
    || p.CCheck? || p.CPark? || p.CTasks? || p.CTasksPark? || p.CloseDone? || p.CloseCancelled?
    || p.AStore? || p.APublish? || p.ASignal? || p.AReader? || p.AWriter? || p.ADropInbound?
       || p.ADropOutbound? || p.AbortDone?
  }

  ghost predicate ControlEdge(c: Core, p: Caller, p': Caller) {
    match p
    case CRead => p' == if c.state.value.Closed? then CTasks(c.state.value.outcome, 0) else CGuard
    case CGuard => p'.CSwap?
    case CSwap => if c.closing then p'.CDropGuard? else p'.CBegin?
    case CBegin => if c.state.value.Open? then p'.CSignal? else p'.CDropGuard?
    case CSignal => p'.CTimer?
    case CTimer => if c.timerStarted then p'.CDropGuard? else p'.CSpawn?
    case CSpawn => p' == CCheck(0)
    case CDropGuard => p' == CCheck(0)
    case CCheck(seen) => p' == if c.state.value.Closed? then CTasks(c.state.value.outcome, 0) else CPark(seen)
    case CPark(seen) => (p' == CCheck(c.state.version) && seen < c.state.version) || p'.CloseCancelled?
    case CTasks(e, seen) => p' == if c.tasks.value == 0 then CloseDone(e) else CTasksPark(e, seen)
    case CTasksPark(e, seen) => (p' == CTasks(e, c.tasks.version) && seen < c.tasks.version) || p'.CloseCancelled?
    case AStore(d) => p' == APublish(d)
    case APublish(d) => p' == ASignal(d)
    case ASignal(d) => p' == AReader(d)
    case AReader(d) => p' == AWriter(d)
    case AWriter(d) => p' == if d then ADropInbound else AbortDone
    case ADropInbound => p'.ADropOutbound?
    case ADropOutbound => p'.AbortDone?
    case _ => false
  }

  // Steps left to a close() before it waits.
  function BeginDistance(p: Caller): nat {
    match p
    case CRead => 9
    case CGuard => 8
    case CSwap => 7
    case CBegin => 6
    case CSignal => 5
    case CTimer => 4
    case CSpawn => 3
    case CDropGuard => 3
    case _ => 0
  }

  // A send or a receive never touches the core, and stays what it is.
  ghost predicate CallerSummary(s: State, i: nat, s': State) {
    && i < |s.callers| && |s'.callers| == |s.callers| && s'.callers == s.callers[i := s'.callers[i]]
    && s'.cfg == s.cfg && s'.reader == s.reader && s'.readerSeen == s.readerSeen
    && s'.writer == s.writer && s'.writerSeen == s.writerSeen && s'.control == s.control
    && s'.core == CallerEffect(s.core, s.callers[i])
    && s'.dogs == (if s.callers[i].CSpawn? then s.dogs + [DStart(s.core.state.version)] else s.dogs)
    && (if Controls(s.callers[i]) then ControlEdge(s.core, s.callers[i], s'.callers[i]) && s'.log == s.log
        else !Controls(s'.callers[i]))
    && !CallerFinished(s.callers[i])
    && s'.inq.closed == s.inq.closed && s'.outq.closed == s.outq.closed && s'.outq.replies == s.outq.replies
    && (s'.inq.gone <==> s.inq.gone || s.callers[i].ADropInbound?)
    && (s'.outq.abandoned <==> s.outq.abandoned || s.callers[i].ADropOutbound?)
  }

  lemma CloseSummary(s: State, i: nat, ev: CallEvent, s': State)
    requires i < |s.callers| && CloseStep(s, i, ev, s')
    ensures CallerSummary(s, i, s') && s'.inq == s.inq && s'.outq == s.outq
  {
    match s.callers[i] { case CRead => case CCheck(_) => case CPark(_) => case CTasks(_, _) => case _ => }
  }

  lemma BeginCloseSummary(s: State, i: nat, ev: CallEvent, s': State)
    requires i < |s.callers| && BeginCloseStep(s, i, ev, s')
    ensures CallerSummary(s, i, s') && s'.inq == s.inq && s'.outq == s.outq
  {
    hide PutState, PutSignal, PutCount, Less, BeginClose, SignalLocalClose;
    match s.callers[i] {
      case CGuard => case CSwap => case CBegin => case CSignal => case CTimer => case CSpawn => case _ =>
    }
  }

  lemma AborterSummary(s: State, i: nat, ev: CallEvent, s': State)
    requires i < |s.callers| && AborterStep(s, i, ev, s')
    ensures CallerSummary(s, i, s')
    ensures s'.inq == if s.callers[i].ADropInbound? then Forsake(s.inq) else s.inq
    ensures s'.outq == if s.callers[i].ADropOutbound? then s.outq.(abandoned := true) else s.outq
  {
    hide PutState, PutSignal, PublishTerminal, SignalAbort;
    match s.callers[i] {
      case AStore(_) => case APublish(_) => case ASignal(_) => case AReader(_) => case AWriter(_) =>
      case ADropInbound => case _ =>
    }
  }

  // The program points of a send, and of a receive.
  ghost predicate Sends(p: Caller) {
    || p.SCheck? || p.SBytes? || p.SReserve? || p.STerminal? || p.SRefund? || p.SAdmitted? || p.SUnreserve?
    || p.SWaiting? || p.SLost? || p.SendDone?
  }

  ghost predicate Receives(p: Caller) {
    p.VClaim? || p.VLock? || p.VRecv? || p.VTerminal? || p.VRelease? || p.VUnlock? || p.VUnclaim? || p.ReceiveDone?
  }

  lemma OneKind(p: Caller)
    ensures Controls(p) <==> !Sends(p) && !Receives(p)
  {
  }

  lemma AdmitMoves(s: State, i: nat, ev: CallEvent, s': State)
    requires i < |s.callers| && AdmitStep(s, i, ev, s')
    ensures |s'.callers| == |s.callers| && s' == s.(callers := s.callers[i := s'.callers[i]], outq := s'.outq)
    ensures s'.outq == s.outq.(free := s'.outq.free, reserved := s'.outq.reserved)
    ensures Sends(s.callers[i]) && Sends(s'.callers[i]) && !CallerFinished(s.callers[i])
  {
  }

  lemma AdmitSummary(s: State, i: nat, ev: CallEvent, s': State)
    requires i < |s.callers| && AdmitStep(s, i, ev, s')
    ensures CallerSummary(s, i, s') && s'.inq == s.inq && s'.log == s.log
  {
    hide AdmitStep, Controls, Sends;
    AdmitMoves(s, i, ev, s');
    OneKind(s.callers[i]);
    OneKind(s'.callers[i]);
    SendsAreIdle(s.core, s.callers[i]);
  }

  lemma SendsAreIdle(c: Core, p: Caller)
    requires Sends(p)
    ensures CallerEffect(c, p) == c && !p.CSpawn? && !p.ADropInbound? && !p.ADropOutbound?
  {
  }

  lemma SendSummary(s: State, i: nat, ev: CallEvent, s': State)
    requires i < |s.callers| && SendStep(s, i, ev, s')
    ensures CallerSummary(s, i, s') && s'.inq == s.inq
  {
    hide TerminalError, Controls;
    var c' := s'.callers[i];
    if s.callers[i].SAdmitted? {
      assert c'.SWaiting? || c'.SUnreserve?;
    } else {
      assert c'.SendDone? || c'.SLost?;
    }
    OneKind(s.callers[i]);
    OneKind(c');
  }

  lemma ClaimSummary(s: State, i: nat, ev: CallEvent, s': State)
    requires i < |s.callers| && ClaimStep(s, i, ev, s')
    ensures CallerSummary(s, i, s') && s'.outq == s.outq
  {
    hide Controls;
    var c' := s'.callers[i];
    if s.callers[i].VClaim? {
      assert c'.VLock? || c'.ReceiveDone?;
    } else {
      assert c'.VRecv? || c'.VUnclaim? || c'.ReceiveDone?;
    }
    OneKind(s.callers[i]);
    OneKind(c');
  }

  lemma ReceiveSummary(s: State, i: nat, ev: CallEvent, s': State)
    requires i < |s.callers| && ReceiveStep(s, i, ev, s')
    ensures CallerSummary(s, i, s') && s'.outq == s.outq
  {
    hide TerminalError, Controls;
    OneKind(s.callers[i]);
    if i < |s'.callers| {
      OneKind(s'.callers[i]);
    }
    match s.callers[i] { case VRecv => case VTerminal => case _ => }
  }

  lemma CallerSummarized(s: State, i: nat, ev: CallEvent, s': State)
    requires Next(s, CallerActs(i, ev), s')
    ensures CallerSummary(s, i, s')
  {
    hide CloseStep, BeginCloseStep, AborterStep, AdmitStep, SendStep, ClaimStep, ReceiveStep, CallerSummary;
    if CloseStep(s, i, ev, s') {
      CloseSummary(s, i, ev, s');
    } else if BeginCloseStep(s, i, ev, s') {
      BeginCloseSummary(s, i, ev, s');
    } else if AborterStep(s, i, ev, s') {
      AborterSummary(s, i, ev, s');
    } else if AdmitStep(s, i, ev, s') {
      AdmitSummary(s, i, ev, s');
    } else if SendStep(s, i, ev, s') {
      SendSummary(s, i, ev, s');
    } else if ClaimStep(s, i, ev, s') {
      ClaimSummary(s, i, ev, s');
    } else {
      ReceiveSummary(s, i, ev, s');
    }
  }
}
