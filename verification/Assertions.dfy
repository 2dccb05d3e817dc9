// What is known at every program point of module Machine, and that every step
// of every task keeps it. Each task's assertion speaks of its own counter and
// of the shared cells, and is stable under the moves the others can make.
module Assertions {
  import opened Errors
  import opened Config
  import opened Cells
  import opened Lanes
  import opened Machine
  import opened Effects

  // The outcome that the reader derived from what it read.
  ghost predicate Justified(c: Core, o: DriverError) {
    match c.verdict
    case Some(PeerFrame(frame, local)) => o == ClassifyClose(frame, local) && (local ==> c.begun)
    case Some(OrderlyEnd) => o == ClosedOk(LOCAL_NORMAL) && c.begun
    case _ => false
  }

  ghost predicate ClosedWith(c: Core, e: DriverError) { c.state.value == Closed(e) }

  ghost predicate IsClosed(c: Core) { c.state.value.Closed? }

  ghost predicate PeerKnown(c: Core, o: DriverError) {
    IsClosed(c) || c.state.value == PeerClosed(o)
  }

  ghost predicate PastLocal(c: Core) { c.signal.value.PeerClose? || c.signal.value.Abort? }

  // State leads signal, the number of changes is bounded by the orders, and
  // every outcome has a cause.
  ghost predicate CoreOk(c: Core) {
    var d, g := c.state.value, c.signal.value;
    && (g.LocalClose? ==> !d.Open?)
    && (g.PeerClose? ==> d.PeerClosed? || d.Closed?)
    && (g.Abort? ==> d.Closed?)
    && (c.signal.version == 0 <==> g.Running?)
    && c.signal.version <= SignalRank(g)
    && c.state.version <= StateRank(d)
    && (c.readerAbort ==> d.Closed? && !g.Running?)
    && (c.writerAbort ==> d.Closed?)
    && (d.Closing? || d.PeerClosed? ==> c.closing)
    && (d.PeerClosed? ==> Justified(c, d.outcome))
    && (d.Closed? ==> d.outcome.Transport? || Justified(c, d.outcome))
    && (c.begun ==> c.closing)
    && (c.closing <==> c.since.Some?)
    && (c.closing ==> c.since.value <= c.now)
    && (c.abandoned ==> d.Closed? && c.begun)
  }

  // ----- the reader -----

  ghost predicate ReaderLooping(r: Reader) {
    r.RUnstarted? || r.RTop? || r.RSelect? || r.RRecheck? || r.RFlushRequest? || r.RGate? || r.RAcquire? || r.REnqueue?
  }

  // The task's locals are being dropped, or it has ended.
  ghost predicate ReaderEnded(r: Reader) {
    r.RDropControl? || r.RDropInbound? || r.RDropTransport? || r.RDropGuard? || r.RDone?
  }

  // Nothing has been published by the reader, and it alone publishes a peer
  // outcome and closes on behalf of the peer.
  ghost predicate Unpublished(c: Core) {
    !c.state.value.PeerClosed? && c.verdict.None? && (c.closing ==> c.begun)
  }

  ghost predicate AbortUnseen(c: Core, seen: nat) { c.signal.value.Abort? ==> seen < c.signal.version }

  ghost predicate ReaderOk(c: Core, r: Reader, seen: nat) {
    && seen <= c.signal.version
    && match r
       case RUnstarted => Unpublished(c)
       case RTop => Unpublished(c)
       case RRecheck => Unpublished(c)
       case RSelect => Unpublished(c) && AbortUnseen(c, seen)
       case RFlushRequest => Unpublished(c) && AbortUnseen(c, seen)
       case RGate(_) => Unpublished(c) && AbortUnseen(c, seen)
       case RAcquire(_) => Unpublished(c) && AbortUnseen(c, seen)
       case REnqueue(_) => Unpublished(c) && AbortUnseen(c, seen)
       case RLoadClosing(_) => Unpublished(c)
       case RStoreClosing(_, local) => Unpublished(c) && (local ==> c.begun)
       case RJudge(_, e) => Unpublished(c) && e.Transport?
       case RPublishPeer(o) => c.closing && !c.state.value.PeerClosed? && Justified(c, o)
       case RSignalPeer(o) => PeerKnown(c, o) && Justified(c, o)
       case RArm(o) => PeerKnown(c, o) && Justified(c, o) && PastLocal(c)
       case RWaitCheck(o, _, s) => PeerKnown(c, o) && Justified(c, o) && PastLocal(c) && s <= c.state.version
       case RWaitPark(o, _, s) =>
         && PeerKnown(c, o) && Justified(c, o) && PastLocal(c) && s <= c.state.version
         && (IsClosed(c) ==> s < c.state.version)
       case RLateTerminal(o) => PeerKnown(c, o) && Justified(c, o) && PastLocal(c)
       case RPublishFailure(e) => !c.state.value.PeerClosed? && e.Transport?
       case _ => IsClosed(c)
  }

  // ----- the writer -----

  // The task's locals are being dropped, or it has ended.
  ghost predicate WriterEnded(w: Writer) {
    w.WDropCommand? || w.WRelease? || w.WShut? || w.WDrain? || w.WDropTransport? || w.WDropGuard? || w.WDone?
  }

  ghost predicate WriterServing(w: Writer) {
    w.WPoll? || w.WPollQueues? || w.WFlush? || w.WWrite? || w.WReplyOk? || w.WReleaseOk?
  }

  ghost predicate WriterOk(c: Core, w: Writer, seen: nat) {
    && seen <= c.signal.version
    && match w
       case WReadSignal => !c.signal.value.Running?
       case WSendClose => !c.signal.value.Running?
       case WHandshake => !c.signal.value.Running?
       case WHandshakePark => !c.signal.value.Running? && (seen < c.signal.version || c.signal.value.LocalClose?)
       case WHandshakeEnd => PastLocal(c)
       case WCloseFlush => PastLocal(c)
       case WReadPeer => PastLocal(c)
       case WPublishPeer(o) => PeerKnown(c, o) && Justified(c, o) && PastLocal(c)
       case WFail(e, _) => e.Transport?
       case WFailSignal(t, _) => ClosedWith(c, t)
       case WReplyErr(_, t) => ClosedWith(c, t)
       case _ => if WriterServing(w) then seen == 0 else IsClosed(c)
  }

  // ----- watchdogs and callers -----

  ghost predicate DogOk(c: Core, d: Dog) {
    && !c.signal.value.Running?
    && !c.state.value.Open?
    && match d
       case DStart(seen) => seen <= c.state.version
       case DCheck(seen, _) => seen <= c.state.version
       case DPark(seen, _) => seen <= c.state.version && (IsClosed(c) ==> seen < c.state.version)
       case DFire => true
       case _ => IsClosed(c)
  }

  // The reports a finished call has made are the final ones.
  ghost predicate SentHonestly(c: Core, r: Sent) { r.SendFailed? ==> ClosedWith(c, r.error) }

  ghost predicate ReceivedHonestly(c: Core, r: Received) { r.ReceiveFailed? ==> ClosedWith(c, r.error) }

  ghost predicate CallerOk(c: Core, p: Caller) {
    match p
    case CBegin => c.closing && c.begun
    case CSignal => c.closing && c.begun && !c.state.value.Open?
    case CTimer => c.closing && c.begun && !c.state.value.Open? && !c.signal.value.Running?
    case CSpawn => c.closing && c.begun && !c.state.value.Open? && !c.signal.value.Running?
    case CDropGuard => c.closing && c.begun
    case CCheck(seen) => c.closing && c.begun && seen <= c.state.version
    case CPark(seen) => c.closing && c.begun && seen <= c.state.version && (IsClosed(c) ==> seen < c.state.version)
    case CTasks(e, seen) => ClosedWith(c, e) && seen <= c.tasks.version
    case CTasksPark(e, seen) =>
      ClosedWith(c, e) && seen <= c.tasks.version && (c.tasks.value == 0 ==> seen < c.tasks.version)
    case CloseDone(e) => ClosedWith(c, e)
    case AStore(d) => d ==> !c.handle
    case APublish(d) => (d ==> !c.handle) && c.closing && c.begun
    case ASignal(d) => (d ==> !c.handle) && c.abandoned
    case AReader(d) => (d ==> !c.handle) && c.abandoned && c.signal.value.Abort?
    case AWriter(d) => (d ==> !c.handle) && c.abandoned && c.signal.value.Abort? && c.readerAbort
    case ADropInbound => !c.handle && c.abandoned && c.signal.value.Abort? && c.readerAbort && c.writerAbort
    case ADropOutbound => !c.handle && c.abandoned && c.signal.value.Abort? && c.readerAbort && c.writerAbort
    case AbortDone => c.abandoned && c.signal.value.Abort? && c.readerAbort && c.writerAbort
    case STerminal(_) => IsClosed(c)
    case SLost => IsClosed(c)
    case SUnreserve(r) => !r.SendFailed?
    case SendDone(r) => SentHonestly(c, r)
    case VTerminal => IsClosed(c)
    case VUnlock(r) => ReceivedHonestly(c, r)
    case VUnclaim(r) => ReceivedHonestly(c, r)
    case ReceiveDone(r) => ReceivedHonestly(c, r)
    case _ => true
  }

  // ----- the lanes -----

  ghost predicate ReplyOk(c: Core, r: Reply) {
    match r
    case Delivered => true
    case Refused(e) => ClosedWith(c, e)
    case Dropped => IsClosed(c)
  }

  ghost predicate InboundOk(c: Core, q: Inbound, r: Reader) {
    && (q.closed <==> r.RDropTransport? || r.RDropGuard? || r.RDone?)
    && (q.gone ==> IsClosed(c) && c.signal.value.Abort? && !c.handle)
  }

  ghost predicate OutboundOk(c: Core, q: Outbound, w: Writer) {
    && (q.closed <==> w.WDrain? || w.WDropTransport? || w.WDropGuard? || w.WDone?)
    && (q.abandoned ==> IsClosed(c))
  }

  ghost predicate RepliesOk(c: Core, replies: map<nat, Reply>) {
    forall id :: id in replies ==> ReplyOk(c, replies[id])
  }

  ghost predicate DogsOk(c: Core, dogs: seq<Dog>) { forall k :: 0 <= k < |dogs| ==> DogOk(c, dogs[k]) }

  ghost predicate CallersOk(c: Core, callers: seq<Caller>) {
    forall i :: 0 <= i < |callers| ==> CallerOk(c, callers[i])
  }

  ghost predicate Asserted(s: State) {
    && Limits(s.cfg)
    && CoreOk(s.core)
    && (s.control.closed ==> IsClosed(s.core))
    && ReaderOk(s.core, s.reader, s.readerSeen)
    && WriterOk(s.core, s.writer, s.writerSeen)
    && DogsOk(s.core, s.dogs)
    && CallersOk(s.core, s.callers)
    && InboundOk(s.core, s.inq, s.reader)
    && OutboundOk(s.core, s.outq, s.writer)
    && RepliesOk(s.core, s.outq.replies)
  }

  // ----- the moves -----

  // What any step may do to the core.
  ghost predicate Moves(c: Core, d: Core) {
    && c.now <= d.now
    && (d.handle ==> c.handle)
    && (d.state == c.state || d.state.version == c.state.version + 1) && StateMoves(c.state.value, d.state.value)
    && (d.signal == c.signal || d.signal.version == c.signal.version + 1) && SignalMoves(c.signal.value, d.signal.value)
    && (d.tasks == c.tasks || d.tasks.version == c.tasks.version + 1)
    && (c.closing ==> d.closing)
    && (c.timerStarted ==> d.timerStarted)
    && (c.readerAbort ==> d.readerAbort)
    && (c.writerAbort ==> d.writerAbort)
    && (c.begun ==> d.begun)
    && (c.abandoned ==> d.abandoned)
    && (c.since.Some? ==> d.since == c.since)
    && (c.verdict.Some? ==> d.verdict == c.verdict)
  }

  // What anybody but the reader may do to what the reader relies on.
  ghost predicate MovesBesideReader(c: Core, d: Core) {
    && d.verdict == c.verdict
    && (d.state.value.PeerClosed? ==> c.state.value == d.state.value)
    && (d.closing && !c.closing ==> d.begun)
  }

  lemma JustifiedStable(c: Core, d: Core, o: DriverError)
    requires Moves(c, d) && Justified(c, o)
    ensures Justified(d, o)
  {
  }

  lemma ReaderStable(c: Core, d: Core, r: Reader, seen: nat)
    requires Moves(c, d) && MovesBesideReader(c, d) && ReaderOk(c, r, seen)
    ensures ReaderOk(d, r, seen)
  {
  }

  lemma WriterStable(c: Core, d: Core, w: Writer, seen: nat)
    requires Moves(c, d) && WriterOk(c, w, seen)
    ensures WriterOk(d, w, seen)
  {
  }

  lemma DogsStable(c: Core, d: Core, dogs: seq<Dog>)
    requires Moves(c, d) && DogsOk(c, dogs)
    ensures DogsOk(d, dogs)
  {
  }

  lemma CallersStable(c: Core, d: Core, callers: seq<Caller>)
    requires Moves(c, d) && CallersOk(c, callers)
    ensures CallersOk(d, callers)
  {
  }

  lemma RepliesStable(c: Core, d: Core, replies: map<nat, Reply>)
    requires Moves(c, d) && RepliesOk(c, replies)
    ensures RepliesOk(d, replies)
  {
  }

  // Everything a step of one task leaves alone stays asserted.
  lemma OthersStable(s: State, d: Core)
    requires Asserted(s) && Moves(s.core, d)
    ensures DogsOk(d, s.dogs) && CallersOk(d, s.callers) && WriterOk(d, s.writer, s.writerSeen)
    ensures MovesBesideReader(s.core, d) ==> ReaderOk(d, s.reader, s.readerSeen)
    ensures RepliesOk(d, s.outq.replies)
    ensures s.control.closed || s.outq.abandoned || s.inq.gone ==> IsClosed(d)
    ensures s.inq.gone ==> d.signal.value.Abort? && !d.handle
  {
    DogsStable(s.core, d, s.dogs);
    CallersStable(s.core, d, s.callers);
    WriterStable(s.core, d, s.writer, s.writerSeen);
    RepliesStable(s.core, d, s.outq.replies);
    if MovesBesideReader(s.core, d) {
      ReaderStable(s.core, d, s.reader, s.readerSeen);
    }
  }

  // ----- what each kind of access does to the core -----

  lemma NoMove(c: Core)
    ensures Moves(c, c) && MovesBesideReader(c, c)
  {
  }

  lemma TerminalMoves(c: Core, e: DriverError)
    requires CoreOk(c) && (e.Transport? || Justified(c, e))
    ensures var c' := c.(state := PutState(c.state, PublishTerminal(c.state.value, e)));
            Moves(c, c') && MovesBesideReader(c, c') && CoreOk(c') && IsClosed(c')
  {
  }

  lemma PeerMoves(c: Core, o: DriverError)
    requires CoreOk(c) && Justified(c, o) && c.closing && !c.state.value.PeerClosed?
    ensures var c' := c.(state := PutState(c.state, PublishPeerClosed(c.state.value, o)));
            Moves(c, c') && CoreOk(c') && PeerKnown(c', o) && Justified(c', o)
  {
  }

  lemma FailureMoves(c: Core, e: DriverError)
    requires CoreOk(c) && e.Transport?
    ensures var c' := c.(state := PutState(c.state, PublishWriterFailure(c.state.value, e)));
            && Moves(c, c') && MovesBesideReader(c, c') && CoreOk(c')
            && ClosedWith(c', FailureValue(c.state.value, e))
  {
  }

  lemma TimeoutMoves(c: Core)
    requires CoreOk(c)
    ensures var c' := c.(state := PutState(c.state, PublishCloseTimeout(c.state.value)));
            Moves(c, c') && MovesBesideReader(c, c') && CoreOk(c') && IsClosed(c')
  {
  }

  lemma BeginMoves(c: Core)
    requires CoreOk(c) && c.closing
    ensures var c' := c.(state := PutState(c.state, BeginClose(c.state.value)));
            Moves(c, c') && MovesBesideReader(c, c') && CoreOk(c') && !c'.state.value.Open?
  {
  }

  lemma AbandonMoves(c: Core)
    requires CoreOk(c) && c.begun
    ensures var c' := c.(state := PutState(c.state, PublishTerminal(c.state.value, ABANDONED)), abandoned := true);
            Moves(c, c') && MovesBesideReader(c, c') && CoreOk(c') && IsClosed(c')
  {
  }

  lemma SignalAbortMoves(c: Core)
    requires CoreOk(c) && IsClosed(c)
    ensures var c' := c.(signal := PutSignal(c.signal, SignalAbort(c.signal.value)));
            Moves(c, c') && MovesBesideReader(c, c') && CoreOk(c') && c'.signal.value.Abort?
  {
  }

  lemma SignalPeerMoves(c: Core, o: DriverError)
    requires CoreOk(c) && PeerKnown(c, o)
    ensures var c' := c.(signal := PutSignal(c.signal, SignalPeerClose(c.signal.value)));
            Moves(c, c') && MovesBesideReader(c, c') && CoreOk(c') && PastLocal(c')
  {
  }

  lemma SignalLocalMoves(c: Core)
    requires CoreOk(c) && !c.state.value.Open?
    ensures var c' := c.(signal := PutSignal(c.signal, SignalLocalClose(c.signal.value)));
            Moves(c, c') && MovesBesideReader(c, c') && CoreOk(c') && !c'.signal.value.Running?
  {
  }

  lemma TasksMove(c: Core, n: nat)
    requires CoreOk(c)
    ensures var c' := c.(tasks := PutCount(c.tasks, n)); Moves(c, c') && MovesBesideReader(c, c') && CoreOk(c')
  {
  }

  lemma BeginClosingMoves(c: Core)
    requires CoreOk(c)
    ensures Moves(c, BeginClosing(c)) && MovesBesideReader(c, BeginClosing(c)) && CoreOk(BeginClosing(c))
  {
  }

  lemma PeerFrameMoves(c: Core, frame: Option<CloseFrame>, local: bool)
    requires CoreOk(c) && Unpublished(c) && (local ==> c.begun)
    ensures var c' := StoreClosing(c).(verdict := Some(PeerFrame(frame, local)));
            && Moves(c, c') && CoreOk(c') && c'.closing && !c'.state.value.PeerClosed?
            && Justified(c', ClassifyClose(frame, local))
  {
  }

  lemma VerdictMoves(c: Core, v: Verdict)
    requires CoreOk(c) && Unpublished(c)
    ensures var c' := c.(verdict := Some(v));
            && Moves(c, c') && CoreOk(c') && !c'.state.value.PeerClosed?
            && (c.closing && v.OrderlyEnd? ==> Justified(c', ClosedOk(LOCAL_NORMAL)))
  {
  }

  lemma AbortMoves(c: Core)
    requires CoreOk(c) && IsClosed(c)
    ensures var c' := c.(writerAbort := true); Moves(c, c') && MovesBesideReader(c, c') && CoreOk(c')
    ensures var c' := c.(readerAbort := true);
            !c.signal.value.Running? ==> Moves(c, c') && MovesBesideReader(c, c') && CoreOk(c')
  {
  }

  lemma TimerMoves(c: Core)
    requires CoreOk(c)
    ensures var c' := c.(timerStarted := true); Moves(c, c') && MovesBesideReader(c, c') && CoreOk(c')
  {
  }

  // ----- the reader -----

  lemma ReaderEffectMoves(c: Core, r: Reader, seen: nat)
    requires CoreOk(c) && ReaderOk(c, r, seen)
    ensures Moves(c, ReaderEffect(c, r)) && CoreOk(ReaderEffect(c, r))
  {
    hide CoreOk, Moves, MovesBesideReader, Justified;
    match r {
      case RStoreClosing(frame, local) => PeerFrameMoves(c, frame, local);
      case RJudge(orderly, _) => VerdictMoves(c, if c.closing && orderly then OrderlyEnd else BrokenEnd);
      case RPublishPeer(o) => PeerMoves(c, o);
      case RSignalPeer(o) => SignalPeerMoves(c, o);
      case RLateTerminal(o) => TerminalMoves(c, o);
      case RLateAbort => AbortMoves(c);
      case RPublishFailure(e) => TerminalMoves(c, e);
      case RSignalFailure => SignalAbortMoves(c);
      case RAbortWriter => AbortMoves(c);
      case RDropGuard => TasksMove(c, Less(c.tasks.value));
      case _ => NoMove(c);
    }
  }

  // In the reading loop and queue_inbound the core does not change.
  lemma ReaderArrivesReading(timeout: nat, c: Core, r: Reader, seen: nat, r': Reader, seen': nat)
    requires CoreOk(c) && ReaderOk(c, r, seen) && ReaderEdge(timeout, c, r, r') && ReaderLooping(r)
    requires seen' == seen || (seen' == c.signal.version && (r'.RRecheck? || r'.RTop?))
    ensures ReaderOk(c, r', seen')
  {
  }

  ghost predicate ReaderConcluding(r: Reader) {
    r.RLoadClosing? || r.RStoreClosing? || r.RJudge? || r.RPublishPeer? || r.RSignalPeer? || r.RArm?
  }

  lemma ReaderArrivesConcluding(timeout: nat, c: Core, r: Reader, seen: nat, r': Reader)
    requires CoreOk(c) && ReaderOk(c, r, seen) && ReaderEdge(timeout, c, r, r') && ReaderConcluding(r)
    ensures ReaderOk(ReaderEffect(c, r), r', seen)
  {
    hide CoreOk, Moves, MovesBesideReader, Justified;
    match r {
      case RStoreClosing(frame, local) => PeerFrameMoves(c, frame, local);
      case RJudge(orderly, _) => VerdictMoves(c, if c.closing && orderly then OrderlyEnd else BrokenEnd);
      case RPublishPeer(o) => PeerMoves(c, o);
      case RSignalPeer(o) =>
        SignalPeerMoves(c, o);
        JustifiedStable(c, ReaderEffect(c, r), o);
        SignalRises(c, ReaderEffect(c, r));
      case _ =>
    }
  }

  lemma SignalRises(c: Core, d: Core)
    requires Moves(c, d)
    ensures c.signal.version <= d.signal.version && c.state.version <= d.state.version
  {
  }

  lemma ReaderArrivesEnding(timeout: nat, c: Core, r: Reader, seen: nat, r': Reader)
    requires CoreOk(c) && ReaderOk(c, r, seen) && ReaderEdge(timeout, c, r, r') && !ReaderLooping(r)
    requires !ReaderConcluding(r)
    ensures ReaderOk(ReaderEffect(c, r), r', seen)
  {
    hide CoreOk, ReaderOk, ReaderEdge, ReaderEffect;
    if r.RWaitCheck? || r.RWaitPark? {
      ReaderWaitsOn(timeout, c, r, seen, r');
    } else if r.RLateTerminal? || r.RPublishFailure? || r.RSignalFailure? {
      ReaderCloses(timeout, c, r, seen, r');
    } else {
      ReaderLeaves(timeout, c, r, seen, r');
    }
  }

  lemma ReaderWaitsOn(timeout: nat, c: Core, r: Reader, seen: nat, r': Reader)
    requires CoreOk(c) && ReaderOk(c, r, seen) && ReaderEdge(timeout, c, r, r') && (r.RWaitCheck? || r.RWaitPark?)
    ensures ReaderOk(ReaderEffect(c, r), r', seen)
  {
    hide Justified;
    match r { case RWaitCheck(_, _, _) => case _ => }
  }

  lemma ReaderCloses(timeout: nat, c: Core, r: Reader, seen: nat, r': Reader)
    requires CoreOk(c) && ReaderOk(c, r, seen) && ReaderEdge(timeout, c, r, r')
    requires r.RLateTerminal? || r.RPublishFailure? || r.RSignalFailure?
    ensures ReaderOk(ReaderEffect(c, r), r', seen)
  {
    hide CoreOk, Moves, MovesBesideReader, Justified, PutState, PutSignal, PublishTerminal, SignalAbort;
    match r {
      case RLateTerminal(o) => TerminalMoves(c, o);
      case RPublishFailure(e) => TerminalMoves(c, e);
      case _ =>
        SignalAbortMoves(c);
        SignalRises(c, ReaderEffect(c, r));
    }
  }

  lemma ReaderLeaves(timeout: nat, c: Core, r: Reader, seen: nat, r': Reader)
    requires ReaderOk(c, r, seen) && ReaderEdge(timeout, c, r, r')
    requires r.RLateAbort? || r.RAbortWriter? || ReaderEnded(r)
    ensures ReaderOk(ReaderEffect(c, r), r', seen)
  {
    hide Justified, PutCount, Less;
    match r {
      case RLateAbort => case RAbortWriter => case RDropControl => case RDropInbound => case RDropTransport => case _ =>
    }
  }

  lemma AbortsMeanClosed(c: Core)
    requires CoreOk(c)
    ensures c.readerAbort || c.writerAbort || c.abandoned || c.signal.value.Abort? ==> IsClosed(c)
    ensures c.abandoned ==> c.begun && c.closing
    ensures c.readerAbort ==> !c.signal.value.Running?
  {
  }

  lemma ReaderKeepsAssertions(s: State, ev: ReaderEvent, s': State)
    requires Asserted(s) && ReaderStep(s, ev, s')
    ensures Moves(s.core, s'.core) && Asserted(s')
  {
    hide ReaderStep, CoreOk, Moves, MovesBesideReader, ReaderOk, WriterOk, DogsOk, CallersOk, RepliesOk, ReaderEffect;
    ReaderSummarized(s, ev, s');
    ReaderEffectMoves(s.core, s.reader, s.readerSeen);
    if ReaderLooping(s.reader) {
      ReaderArrivesReading(s.cfg.closeTimeout, s.core, s.reader, s.readerSeen, s'.reader, s'.readerSeen);
      ReaderIdle(s.core, s.reader);
    } else if ReaderConcluding(s.reader) {
      ReaderArrivesConcluding(s.cfg.closeTimeout, s.core, s.reader, s.readerSeen, s'.reader);
    } else {
      ReaderArrivesEnding(s.cfg.closeTimeout, s.core, s.reader, s.readerSeen, s'.reader);
    }
    OthersStable(s, s'.core);
    ReaderOkMeansClosed(s'.core, s'.reader, s'.readerSeen);
  }

  lemma ReaderIdle(c: Core, r: Reader)
    requires ReaderLooping(r)
    ensures ReaderEffect(c, r) == c
  {
  }

  lemma ReaderOkMeansClosed(c: Core, r: Reader, seen: nat)
    requires ReaderOk(c, r, seen)
    ensures ReaderEnded(r) ==> IsClosed(c)
  {
  }

  // ----- the writer -----

  lemma WriterEffectMoves(c: Core, w: Writer, seen: nat)
    requires CoreOk(c) && WriterOk(c, w, seen)
    ensures var c' := WriterEffect(c, w); Moves(c, c') && MovesBesideReader(c, c') && CoreOk(c')
  {
    hide CoreOk, Moves, MovesBesideReader, Justified;
    match w {
      case WPublishPeer(o) => TerminalMoves(c, o);
      case WFail(e, _) => FailureMoves(c, e);
      case WFailSignal(_, _) => SignalAbortMoves(c);
      case WDropGuard => TasksMove(c, Less(c.tasks.value));
      case _ => NoMove(c);
    }
  }

  ghost predicate WriterSees(c: Core, w: Writer, seen: nat, w': Writer, seen': nat) {
    if (w.WPoll? && w'.WReadSignal?) || (w.WHandshakePark? && w'.WHandshake?)
    then seen < c.signal.version && seen' == c.signal.version
    else seen' == seen
  }

  lemma WriterArrives(c: Core, w: Writer, seen: nat, w': Writer, seen': nat)
    requires CoreOk(c) && WriterOk(c, w, seen) && WriterEdge(c, w, w') && WriterSees(c, w, seen, w', seen')
    requires w.WPollQueues? && w'.WShut? ==> IsClosed(c)
    ensures WriterOk(WriterEffect(c, w), w', seen')
  {
    hide CoreOk, WriterOk, WriterEdge, WriterEffect, WriterSees;
    if WriterServing(w) {
      WriterArrivesServing(c, w, seen, w', seen');
    } else if w.WPublishPeer? || w.WFail? || w.WFailSignal? {
      WriterArrivesClosing(c, w, seen, w', seen');
    } else if WriterEnded(w) || w.WReplyErr? {
      WriterArrivesEnding(c, w, seen, w', seen');
    } else {
      WriterArrivesHeeding(c, w, seen, w', seen');
    }
  }

  lemma WriterArrivesServing(c: Core, w: Writer, seen: nat, w': Writer, seen': nat)
    requires CoreOk(c) && WriterOk(c, w, seen) && WriterEdge(c, w, w') && WriterSees(c, w, seen, w', seen')
    requires w.WPollQueues? && w'.WShut? ==> IsClosed(c)
    requires WriterServing(w)
    ensures WriterOk(WriterEffect(c, w), w', seen')
  {
  }

  lemma WriterArrivesHeeding(c: Core, w: Writer, seen: nat, w': Writer, seen': nat)
    requires CoreOk(c) && WriterOk(c, w, seen) && WriterEdge(c, w, w') && WriterSees(c, w, seen, w', seen')
    requires w.WReadSignal? || w.WSendClose? || w.WHandshake? || w.WHandshakePark? || w.WHandshakeEnd? || w.WCloseFlush?
             || w.WReadPeer?
    ensures WriterOk(WriterEffect(c, w), w', seen')
  {
    match w {
      case WReadSignal => case WSendClose => case WHandshake => case WHandshakePark => case WHandshakeEnd =>
      case WCloseFlush => case _ =>
    }
  }

  lemma WriterArrivesClosing(c: Core, w: Writer, seen: nat, w': Writer, seen': nat)
    requires CoreOk(c) && WriterOk(c, w, seen) && WriterEdge(c, w, w') && WriterSees(c, w, seen, w', seen')
    requires w.WPublishPeer? || w.WFail? || w.WFailSignal?
    ensures WriterOk(WriterEffect(c, w), w', seen')
  {
    hide CoreOk, MovesBesideReader, Justified, PutState, PutSignal, PublishTerminal, PublishWriterFailure, SignalAbort;
    match w {
      case WPublishPeer(o) => TerminalMoves(c, o);
      case WFail(e, _) => FailureMoves(c, e);
      case _ => SignalAbortMoves(c);
    }
  }

  lemma WriterArrivesEnding(c: Core, w: Writer, seen: nat, w': Writer, seen': nat)
    requires WriterOk(c, w, seen) && WriterEdge(c, w, w') && WriterSees(c, w, seen, w', seen')
    requires WriterEnded(w) || w.WReplyErr?
    ensures WriterOk(WriterEffect(c, w), w', seen')
  {
    hide Justified, PutCount, Less;
    match w {
      case WReplyErr(_, _) => case WDropCommand(_) => case WRelease(_) => case WShut => case WDrain =>
      case WDropTransport =>
      case _ =>
    }
  }

  lemma WriterRepliesHonestly(s: State)
    requires WriterOk(s.core, s.writer, s.writerSeen) && RepliesOk(s.core, s.outq.replies)
    ensures RepliesOk(WriterEffect(s.core, s.writer), Answered(s)) || WriterEffect(s.core, s.writer) != s.core
    ensures WriterEffect(s.core, s.writer) != s.core ==> Answered(s) == s.outq.replies
  {
  }

  lemma WriterKeepsAssertions(s: State, ev: WriterEvent, s': State)
    requires Asserted(s) && WriterStep(s, ev, s')
    ensures Moves(s.core, s'.core) && MovesBesideReader(s.core, s'.core) && Asserted(s')
  {
    hide WriterStep, CoreOk, Moves, MovesBesideReader, ReaderOk, WriterOk, DogsOk, CallersOk, RepliesOk, WriterEffect;
    hide WriterEdge, Answered;
    WriterSummarized(s, ev, s');
    WriterEffectMoves(s.core, s.writer, s.writerSeen);
    WriterArrives(s.core, s.writer, s.writerSeen, s'.writer, s'.writerSeen);
    WriterRepliesHonestly(s);
    OthersStable(s, s'.core);
    WriterOkMeansClosed(s.core, s.writer, s.writerSeen);
    WriterDrains(s.core, s.writer, s'.writer);
  }

  lemma WriterOkMeansClosed(c: Core, w: Writer, seen: nat)
    requires WriterOk(c, w, seen)
    ensures WriterEnded(w) ==> IsClosed(c)
  {
  }

  ghost predicate WriterShut(w: Writer) { w.WDrain? || w.WDropTransport? || w.WDropGuard? || w.WDone? }

  lemma WriterDrains(c: Core, w: Writer, w': Writer)
    requires WriterEdge(c, w, w')
    ensures WriterShut(w') <==> WriterShut(w) || w.WShut?
  {
  }

  // ----- the watchdogs -----

  lemma DogEffectMoves(timeout: nat, c: Core, d: Dog, d': Dog)
    requires CoreOk(c) && DogOk(c, d) && DogEdge(timeout, c, d, d')
    ensures var c' := DogEffect(c, d); Moves(c, c') && MovesBesideReader(c, c') && CoreOk(c') && DogOk(c', d')
  {
    hide CoreOk, Moves, MovesBesideReader;
    match d {
      case DFire => TimeoutMoves(c);
      case DAbortReader => AbortMoves(c);
      case DAbortWriter => AbortMoves(c);
      case DDropGuard => TasksMove(c, Less(c.tasks.value));
      case _ => NoMove(c);
    }
  }

  lemma DogKeepsAssertions(s: State, k: nat, ev: DogEvent, s': State)
    requires Asserted(s) && k < |s.dogs| && DogStep(s, k, ev, s')
    ensures Moves(s.core, s'.core) && MovesBesideReader(s.core, s'.core) && Asserted(s')
  {
    hide DogStep, CoreOk, Moves, MovesBesideReader, ReaderOk, WriterOk, CallersOk, DogEffect, DogEdge, DogOk, RepliesOk;
    DogSummarized(s, k, ev, s');
    assert DogOk(s.core, s.dogs[k]);
    DogEffectMoves(s.cfg.closeTimeout, s.core, s.dogs[k], s'.dogs[k]);
    OthersStable(s, s'.core);
  }

  // ----- the calls -----

  // What the accesses of close() and abort() rely on.
  lemma CallerNeeds(c: Core, p: Caller)
    requires CallerOk(c, p)
    ensures p.CBegin? ==> c.closing
    ensures p.CSignal? ==> !c.state.value.Open?
    ensures p.APublish? ==> c.begun && c.closing
    ensures p.ASignal? ==> c.abandoned
    ensures p.AReader? || p.AWriter? ==> c.abandoned && c.signal.value.Abort?
    ensures p.AWriter? ==> c.readerAbort
  {
  }

  lemma CallerEffectMoves(c: Core, p: Caller)
    requires CoreOk(c) && CallerOk(c, p)
    ensures var c' := CallerEffect(c, p); Moves(c, c') && MovesBesideReader(c, c') && CoreOk(c')
  {
    CallerNeeds(c, p);
    AbortsMeanClosed(c);
    hide CallerOk, CallerEffect, CoreOk, Moves, MovesBesideReader, PutState, PutSignal, PutCount, BeginClosing;
    CallerEffects(c, p);
    if p.CGuard? {
      TasksMove(c, c.tasks.value + 1);
    } else if p.CSwap? || p.AStore? {
      BeginClosingMoves(c);
    } else if p.CBegin? {
      BeginMoves(c);
    } else if p.CSignal? {
      SignalLocalMoves(c);
    } else if p.CTimer? {
      TimerMoves(c);
    } else if p.CDropGuard? {
      TasksMove(c, Less(c.tasks.value));
    } else if p.APublish? {
      AbandonMoves(c);
    } else if p.ASignal? {
      SignalAbortMoves(c);
    } else if p.AReader? || p.AWriter? {
      AbortMoves(c);
    } else {
      CallerIdles(c, p);
      NoMove(c);
    }
  }

  ghost predicate Aborts(p: Caller) {
    p.AStore? || p.APublish? || p.ASignal? || p.AReader? || p.AWriter? || p.ADropInbound? || p.ADropOutbound?
  }

  lemma WaitArrives(c: Core, p: Caller, p': Caller)
    requires CallerOk(c, p) && ControlEdge(c, p, p')
    requires p.CRead? || p.CCheck? || p.CPark? || p.CTasks? || p.CTasksPark?
    ensures CallerOk(c, p') && CallerEffect(c, p) == c
  {
  }

  lemma BeginArrives(c: Core, p: Caller, p': Caller)
    requires CoreOk(c) && CallerOk(c, p) && ControlEdge(c, p, p')
    requires p.CGuard? || p.CSwap? || p.CBegin? || p.CSignal? || p.CTimer? || p.CSpawn? || p.CDropGuard?
    ensures CallerOk(CallerEffect(c, p), p')
  {
  }

  lemma AbortArrives(c: Core, p: Caller, p': Caller)
    requires CoreOk(c) && CallerOk(c, p) && ControlEdge(c, p, p') && Aborts(p)
    ensures CallerOk(CallerEffect(c, p), p')
  {
    CallerNeeds(c, p);
    AbortsMeanClosed(c);
    hide CallerEffect, CoreOk, Moves, MovesBesideReader, PutState, PutSignal, PublishTerminal, SignalAbort;
    if p.AStore? || p.APublish? || p.ASignal? {
      AbortArrivesEarly(c, p, p');
    } else {
      hide BeginClosing;
      CallerEffects(c, p);
      match p { case AReader(_) => case AWriter(_) => case ADropInbound => case _ => }
    }
  }

  lemma AbortArrivesEarly(c: Core, p: Caller, p': Caller)
    requires CoreOk(c) && CallerOk(c, p) && ControlEdge(c, p, p') && (p.AStore? || p.APublish? || p.ASignal?)
    ensures CallerOk(CallerEffect(c, p), p')
  {
  }

  lemma ControlArrives(c: Core, p: Caller, p': Caller)
    requires CoreOk(c) && CallerOk(c, p) && ControlEdge(c, p, p')
    ensures CallerOk(CallerEffect(c, p), p')
  {
    hide CoreOk, CallerOk, CallerEffect;
    if p.CRead? || p.CCheck? || p.CPark? || p.CTasks? || p.CTasksPark? {
      WaitArrives(c, p, p');
    } else if Aborts(p) {
      AbortArrives(c, p, p');
    } else {
      BeginArrives(c, p, p');
    }
  }

  // A send or a receive reads the terminal value only when it is there.
  lemma AdmitArrives(s: State, i: nat, ev: CallEvent, s': State)
    requires i < |s.callers| && CallerOk(s.core, s.callers[i]) && AdmitStep(s, i, ev, s')
    requires s.outq.closed ==> IsClosed(s.core)
    ensures i < |s'.callers| && CallerOk(s.core, s'.callers[i])
  {
    hide HasSlot, TerminalError;
    match s.callers[i] { case SCheck(_) => case SBytes(_) => case SReserve(_) => case STerminal(_) => case _ => }
  }

  lemma SendArrives(s: State, i: nat, ev: CallEvent, s': State)
    requires i < |s.callers| && CallerOk(s.core, s.callers[i]) && SendStep(s, i, ev, s')
    requires i in s.outq.replies ==> ReplyOk(s.core, s.outq.replies[i])
    ensures i < |s'.callers| && CallerOk(s.core, s'.callers[i])
  {
    match s.callers[i] { case SAdmitted(_) => case SUnreserve(_) => case SWaiting => case _ => }
  }

  lemma ClaimArrives(s: State, i: nat, ev: CallEvent, s': State)
    requires i < |s.callers| && CallerOk(s.core, s.callers[i]) && ClaimStep(s, i, ev, s')
    ensures i < |s'.callers| && CallerOk(s.core, s'.callers[i])
  {
    match s.callers[i] { case VClaim => case VLock => case VUnlock(_) => case _ => }
  }

  lemma ReceiveArrives(s: State, i: nat, ev: CallEvent, s': State)
    requires i < |s.callers| && CallerOk(s.core, s.callers[i]) && ReceiveStep(s, i, ev, s')
    requires s.inq.closed ==> IsClosed(s.core)
    ensures i < |s'.callers| && CallerOk(s.core, s'.callers[i])
  {
    match s.callers[i] { case VRecv => case VTerminal => case _ => }
  }

  lemma CallerArrives(s: State, i: nat, ev: CallEvent, s': State)
    requires Asserted(s) && Next(s, CallerActs(i, ev), s')
    ensures i < |s'.callers| && CallerOk(s'.core, s'.callers[i])
  {
    hide CloseStep, BeginCloseStep, AborterStep, AdmitStep, SendStep, ClaimStep, ReceiveStep;
    hide CallerEffect, ControlEdge, CoreOk, CallerOk, Controls, ReaderOk, WriterOk;
    assert CallerOk(s.core, s.callers[i]);
    CallerSummarized(s, i, ev, s');
    ReaderOkMeansClosed(s.core, s.reader, s.readerSeen);
    WriterOkMeansClosed(s.core, s.writer, s.writerSeen);
    IdleLane(s.core, s.callers[i]);
    if Controls(s.callers[i]) {
      ControlArrives(s.core, s.callers[i], s'.callers[i]);
    } else if AdmitStep(s, i, ev, s') {
      AdmitArrives(s, i, ev, s');
    } else if SendStep(s, i, ev, s') {
      SendArrives(s, i, ev, s');
    } else if ClaimStep(s, i, ev, s') {
      ClaimArrives(s, i, ev, s');
    } else if ReceiveStep(s, i, ev, s') {
      ReceiveArrives(s, i, ev, s');
    } else {
      ControlStepsControl(s, i, ev, s');
    }
  }

  lemma ControlStepsControl(s: State, i: nat, ev: CallEvent, s': State)
    requires i < |s.callers|
    requires CloseStep(s, i, ev, s') || BeginCloseStep(s, i, ev, s') || AborterStep(s, i, ev, s')
    ensures Controls(s.callers[i])
  {
  }

  lemma IdleLane(c: Core, p: Caller)
    ensures !Controls(p) ==> CallerEffect(c, p) == c
  {
  }

  lemma CallerKeepsAssertions(s: State, i: nat, ev: CallEvent, s': State)
    requires Asserted(s) && Next(s, CallerActs(i, ev), s')
    ensures Moves(s.core, s'.core) && MovesBesideReader(s.core, s'.core) && Asserted(s')
  {
    hide Next, CoreOk, Moves, MovesBesideReader, ReaderOk, WriterOk, CallerOk, DogOk, RepliesOk, CallerEffect;
    hide ControlEdge, Controls;
    assert CallerOk(s.core, s.callers[i]) by { CallerSummarized(s, i, ev, s'); }
    CallerSummarized(s, i, ev, s');
    CallerEffectMoves(s.core, s.callers[i]);
    CallerArrives(s, i, ev, s');
    OthersStable(s, s'.core);
    FieldsDropLate(s.core, s.callers[i], s'.core);
    if s.callers[i].CSpawn? {
      SpawnsLate(s.core, s.callers[i]);
      DogStableOne(s.core, s'.core, DStart(s.core.state.version));
    }
  }

  lemma FieldsDropLate(c: Core, p: Caller, d: Core)
    requires CoreOk(c) && CallerOk(c, p) && d == CallerEffect(c, p)
    ensures p.ADropInbound? || p.ADropOutbound? ==> IsClosed(d) && d.signal.value.Abort? && !d.handle
  {
  }

  lemma SpawnsLate(c: Core, p: Caller)
    requires CallerOk(c, p) && p.CSpawn?
    ensures DogOk(c, DStart(c.state.version))
  {
  }

  lemma DogStableOne(c: Core, d: Core, dog: Dog)
    requires Moves(c, d) && DogOk(c, dog)
    ensures DogOk(d, dog)
  {
  }

  // ----- starts, the clock and stranded commands -----

  lemma AmbientKeepsAssertions(s: State, a: Action, s': State)
    requires Asserted(s) && (Starts(s, a, s') || Ambient(s, a, s'))
    ensures Moves(s.core, s'.core) && MovesBesideReader(s.core, s'.core) && Asserted(s')
  {
    hide Quiet;
    assert Moves(s.core, s'.core) && MovesBesideReader(s.core, s'.core) && CoreOk(s'.core);
    OthersStable(s, s'.core);
  }

  lemma StepKeepsAssertions(s: State, a: Action, s': State)
    requires Asserted(s) && Next(s, a, s')
    ensures Moves(s.core, s'.core) && Asserted(s')
    ensures !a.ReaderActs? ==> MovesBesideReader(s.core, s'.core)
  {
    hide Asserted, Moves, MovesBesideReader, ReaderStep, WriterStep, DogStep, Starts, Ambient;
    hide CloseStep, BeginCloseStep, AborterStep, AdmitStep, SendStep, ClaimStep, ReceiveStep;
    match a {
      case ReaderActs(ev) => ReaderKeepsAssertions(s, ev, s');
      case WriterActs(ev) => WriterKeepsAssertions(s, ev, s');
      case DogActs(k, ev) => DogKeepsAssertions(s, k, ev, s');
      case CallerActs(i, ev) => CallerKeepsAssertions(s, i, ev, s');
      case _ => AmbientKeepsAssertions(s, a, s');
    }
  }

  lemma InitIsAsserted(s: State)
    requires Init(s)
    ensures Asserted(s)
  {
  }
}
