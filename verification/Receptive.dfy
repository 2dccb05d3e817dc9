// The model leaves its environment free (src/driver.rs): the wire may yield any
// item and take or fail any write, calls may come and be cancelled at any await,
// an admission may be used, given back or misused, and either queue may be
// served, so that nothing is proved by shutting a behaviour out.
module Receptive {
  import opened Errors
  import opened Cells
  import opened Lanes
  import opened Machine
  import opened Assertions
  import opened Runs
  import opened Fairness
  import opened Writes
  import Outflow

  ghost predicate Possible(s: State, a: Action) { exists s' :: Next(s, a, s') }

  lemma WireMayYield(s: State, item: WireItem)
    requires s.reader.RSelect? && (item.Data? ==> SizeOf(item.message) <= s.cfg.maxMessageSize)
    ensures Possible(s, ReaderActs(RWire(item)))
  {
    assert ReaderReads(s, RWire(item), OnWire(s, item));
    assert Next(s, ReaderActs(RWire(item)), OnWire(s, item));
  }

  lemma WireMaySucceed(s: State)
    requires OnTheWire(s.writer)
    ensures Possible(s, WriterActs(WIoOk))
  {
    var s' := s.(writer := match s.writer
      case WWrite(c) => WReplyOk(c)
      case WSendClose => WHandshake
      case WCloseFlush => WReadPeer
      case _ => WPoll);
    assert WriterServes(s, WIoOk, s') || CloseWriter(s, WIoOk, s');
    assert Next(s, WriterActs(WIoOk), s');
  }

  lemma WireMayFail(s: State, text: string)
    requires OnTheWire(s.writer)
    ensures Possible(s, WriterActs(WIoError(text)))
  {
    var s' := s.(writer := WFail(IoFailure(s.writer, text), OnWireSend(s.writer)));
    assert WriterServes(s, WIoError(text), s') || CloseWriter(s, WIoError(text), s');
    assert Next(s, WriterActs(WIoError(text)), s');
  }

  lemma AbortsMayBeHonoured(s: State)
    ensures s.core.readerAbort && ReaderParked(s.reader) ==> Possible(s, ReaderActs(RAborted))
    ensures s.core.writerAbort && WriterParked(s.writer) ==> Possible(s, WriterActs(WAborted))
  {
    hide ReaderReads, QueueInbound, ReaderJudges, FinishPeerClose, ReaderWaits, FinishReaderFailure, ReaderDrops;
    hide WriterServes, WriterHeeds, CloseWriter, WriterLeaves;
    if s.core.readerAbort && ReaderParked(s.reader) {
      assert Next(s, ReaderActs(RAborted), ReaderUnwinds(s));
    }
    if s.core.writerAbort && WriterParked(s.writer) {
      assert Next(s, WriterActs(WAborted), WriterUnwinds(s));
    }
  }

  lemma CallsMayBeCancelled(s: State, i: nat)
    requires i < |s.callers| && CallerParked(s.callers[i])
    ensures Possible(s, CallerActs(i, Cancel))
  {
    var s' := match s.callers[i]
      case SAdmitted(size) => SetCaller(s.(outq := Release(s.outq, size)), i, SUnreserve(SendCancelled))
      case SWaiting => SetCaller(s, i, SendDone(SendCancelled))
      case VLock => SetCaller(s, i, VUnclaim(ReceiveCancelled))
      case VRecv => SetCaller(s, i, VUnlock(ReceiveCancelled))
      case CPark(_) => SetCaller(s, i, CloseCancelled)
      case CTasksPark(_, _) => SetCaller(s, i, CloseCancelled)
      case _ => s;
    assert CloseStep(s, i, Cancel, s') || SendStep(s, i, Cancel, s') || ClaimStep(s, i, Cancel, s')
           || ReceiveStep(s, i, Cancel, s');
    assert Next(s, CallerActs(i, Cancel), s');
  }

  lemma AdmissionsMayBeUsed(s: State, i: nat)
    requires Sound(s) && i < |s.callers| && s.callers[i].SAdmitted?
    ensures Possible(s, CallerActs(i, Go)) && Possible(s, CallerActs(i, Mismatch))
  {
    hide Sound;
    SoundConserves(s);
    Outflow.AdmissionKeepsItsSlot(s, i);
    var size := s.callers[i].size;
    var sent := SetCaller(
      s.(outq := Enqueue(s.outq, Command(i, size)), log := s.log.(queued := s.log.queued + [i])), i, SWaiting);
    assert SendStep(s, i, Go, sent);
    assert Next(s, CallerActs(i, Go), sent);
    var refused := SetCaller(s.(outq := Release(s.outq, size)), i, SUnreserve(SendRefused(CHANGED)));
    assert SendStep(s, i, Mismatch, refused);
    assert Next(s, CallerActs(i, Mismatch), refused);
  }

  lemma SoundConserves(s: State)
    requires Sound(s)
    ensures Outflow.Conserved(s)
  {
    hide Outflow.Conserved, Asserted;
  }

  lemma EitherQueueMayBeServed(s: State)
    requires s.writer.WPollQueues?
    ensures s.control.pending > 0 ==> Possible(s, WriterActs(WTakeControl))
    ensures s.outq.queue != [] ==> Possible(s, WriterActs(WTakeOutbound))
  {
    if s.control.pending > 0 {
      var flushing := s.(control := s.control.(pending := s.control.pending - 1), writer := WFlush);
      assert WriterServes(s, WTakeControl, flushing);
      assert Next(s, WriterActs(WTakeControl), flushing);
    }
    if s.outq.queue != [] {
      var c := s.outq.queue[0];
      var writing := s.(outq := Dequeue(s.outq), writer := WWrite(c),
                        log := s.log.(wire := s.log.wire + [DataFrame(c.id)]));
      assert WriterServes(s, WTakeOutbound, writing);
      assert Next(s, WriterActs(WTakeOutbound), writing);
    }
  }

  lemma CallsMayCome(s: State, c: Caller)
    requires s.core.handle && (c == CRead || c == AStore(false) || c.SCheck? || c == VClaim)
    ensures Possible(s, CallStarts(c))
  {
    assert Next(s, CallStarts(c), s.(callers := s.callers + [c]));
  }

  lemma HandleMayDropAndTimePass(s: State)
    ensures s.core.handle && (forall i :: 0 <= i < |s.callers| ==> CallerFinished(s.callers[i])) ==>
              Possible(s, HandleDrops)
    ensures Quiet(s) ==> Possible(s, Ticks)
  {
    hide Quiet, CallerFinished;
    if s.core.handle && (forall i :: 0 <= i < |s.callers| ==> CallerFinished(s.callers[i])) {
      assert Next(s, HandleDrops, s.(core := s.core.(handle := false), callers := s.callers + [AStore(true)]));
    }
    if Quiet(s) {
      assert Next(s, Ticks, s.(core := s.core.(now := s.core.now + 1)));
    }
  }

  // All of this at once, in every reachable state.
  lemma EnvironmentIsFree(s: State)
    requires Sound(s)
    ensures forall item: WireItem ::
              s.reader.RSelect? && (item.Data? ==> SizeOf(item.message) <= s.cfg.maxMessageSize) ==>
              Possible(s, ReaderActs(RWire(item)))
    ensures OnTheWire(s.writer) ==> Possible(s, WriterActs(WIoOk))
    ensures forall text: string :: OnTheWire(s.writer) ==> Possible(s, WriterActs(WIoError(text)))
    ensures s.core.readerAbort && ReaderParked(s.reader) ==> Possible(s, ReaderActs(RAborted))
    ensures s.core.writerAbort && WriterParked(s.writer) ==> Possible(s, WriterActs(WAborted))
    ensures forall i :: 0 <= i < |s.callers| && CallerParked(s.callers[i]) ==> Possible(s, CallerActs(i, Cancel))
    ensures forall i :: 0 <= i < |s.callers| && s.callers[i].SAdmitted? ==>
              Possible(s, CallerActs(i, Go)) && Possible(s, CallerActs(i, Mismatch))
    ensures s.writer.WPollQueues? && s.control.pending > 0 ==> Possible(s, WriterActs(WTakeControl))
    ensures s.writer.WPollQueues? && s.outq.queue != [] ==> Possible(s, WriterActs(WTakeOutbound))
    ensures forall c: Caller :: s.core.handle && (c == CRead || c == AStore(false) || c.SCheck? || c == VClaim) ==>
              Possible(s, CallStarts(c))
    ensures s.core.handle && (forall i :: 0 <= i < |s.callers| ==> CallerFinished(s.callers[i])) ==>
              Possible(s, HandleDrops)
    ensures Quiet(s) ==> Possible(s, Ticks)
  {
    hide Sound, Next, Possible, OnTheWire, CallerParked, CallerFinished, Quiet, ReaderParked, WriterParked;
    forall item: WireItem | s.reader.RSelect? && (item.Data? ==> SizeOf(item.message) <= s.cfg.maxMessageSize)
      ensures Possible(s, ReaderActs(RWire(item)))
    {
      WireMayYield(s, item);
    }
    if OnTheWire(s.writer) {
      WireMaySucceed(s);
      forall text: string ensures Possible(s, WriterActs(WIoError(text))) {
        WireMayFail(s, text);
      }
    }
    AbortsMayBeHonoured(s);
    forall i | 0 <= i < |s.callers| && CallerParked(s.callers[i]) ensures Possible(s, CallerActs(i, Cancel)) {
      CallsMayBeCancelled(s, i);
    }
    forall i | 0 <= i < |s.callers| && s.callers[i].SAdmitted?
      ensures Possible(s, CallerActs(i, Go)) && Possible(s, CallerActs(i, Mismatch))
    {
      AdmissionsMayBeUsed(s, i);
    }
    if s.writer.WPollQueues? {
      EitherQueueMayBeServed(s);
    }
    forall c: Caller | s.core.handle && (c == CRead || c == AStore(false) || c.SCheck? || c == VClaim)
      ensures Possible(s, CallStarts(c))
    {
      CallsMayCome(s, c);
    }
    HandleMayDropAndTimePass(s);
  }
}
