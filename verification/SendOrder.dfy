// The order of outbound traffic (src/driver.rs, run_writer and send_admitted):
// accepted sends are resolved at most once and never lost, Ok answers follow
// queue order, and the frames written are data frames in queue order followed
// by at most one close frame.
module SendOrder {
  import opened Cells
  import opened Lanes
  import opened Machine
  import opened Effects
  import opened Assertions
  import opened Outflow

  // The sends in queue order, those answered Ok, those not resolved yet, and
  // the replies.
  datatype Flow = Flow(queued: seq<nat>, answered: seq<nat>, pending: seq<nat>, replies: map<nat, Reply>)

  ghost predicate Distinct(xs: seq<nat>) { forall j, k :: 0 <= j < k < |xs| ==> xs[j] != xs[k] }

  ghost predicate FlowOk(f: Flow) {
    && Distinct(f.queued) && Distinct(f.pending)
    && f.answered <= f.queued
    && (forall id :: id in f.pending ==> id in f.queued && id !in f.replies)
    && (forall id :: id in f.queued ==> id in f.replies || id in f.pending)
    && (forall id :: id in f.replies ==> id in f.queued)
    && (forall id :: id in f.answered ==> id in f.replies)
    && (forall id :: id in f.replies ==> (f.replies[id].Delivered? <==> id in f.answered))
  }

  // Nothing has been skipped: every queued send is answered Ok or pending.
  ghost predicate Unbroken(f: Flow) { f.queued == f.answered + f.pending }

  lemma Submits(f: Flow, id: nat)
    requires FlowOk(f) && id !in f.queued
    ensures var g := f.(queued := f.queued + [id], pending := f.pending + [id]);
            FlowOk(g) && (Unbroken(f) ==> Unbroken(g))
  {
  }

  lemma AnswersOk(f: Flow)
    requires FlowOk(f) && Unbroken(f) && f.pending != []
    ensures var g := Flow(f.queued, f.answered + [f.pending[0]], f.pending[1..], f.replies[f.pending[0] := Delivered]);
            FlowOk(g) && Unbroken(g)
  {
  }

  // A send that is not answered Ok gets some other reply.
  lemma Resolves(f: Flow, k: nat, r: Reply)
    requires FlowOk(f) && k < |f.pending| && !r.Delivered?
    requires f.pending[k] !in f.answered
    ensures FlowOk(f.(pending := f.pending[..k] + f.pending[k + 1..], replies := f.replies[f.pending[k] := r]))
  {
  }

  // What is pending has not been answered.
  lemma PendingIsUnanswered(f: Flow, id: nat)
    requires FlowOk(f) && id in f.pending
    ensures id !in f.answered
  {
  }

  // ----- the flow of a state -----

  function Pending(s: State): seq<nat> { Unanswered(s.writer) + Ids(s.outq.queue) }

  function FlowOf(s: State): Flow { Flow(s.log.queued, s.log.answered, Pending(s), s.outq.replies) }

  // The writer has not met a failure, an abort or the end of its work.
  ghost predicate Flowing(w: Writer) {
    !(w.WReplyErr? || w.WDropCommand? || w.WRelease? || w.WShut? || w.WDrain? || w.WDropTransport?
      || w.WDropGuard? || w.WDone?)
  }

  // A call whose command has been queued.
  ghost predicate Submitted(p: Caller) { p.SWaiting? || p.SLost? || p.SendDone? }

  // Queued sends are exactly the calls that went past their admission, none of
  // them is refused, and what each of them reports is what its reply says.
  ghost predicate CallsMatch(callers: seq<Caller>, f: Flow) {
    && (forall id :: id in f.queued ==> id < |callers| && Submitted(callers[id]))
    && (forall i :: 0 <= i < |callers| ==>
          && (callers[i].SWaiting? ==> i in f.queued)
          && (callers[i].SUnreserve? ==> callers[i].sent.SendCancelled? || callers[i].sent.SendRefused?)
          && (callers[i].SLost? ==> i in f.replies && f.replies[i].Dropped?)
          && (callers[i].SendDone? && callers[i].sent.SendRefused? ==> i !in f.queued)
          && (callers[i].SendDone? && callers[i].sent.SentOk? ==> i in f.answered)
          && (callers[i].SendDone? && callers[i].sent.SendFailed? ==>
                i in f.replies && (f.replies[i].Dropped? || f.replies[i] == Refused(callers[i].sent.error))))
  }

  ghost predicate Ordered(s: State) {
    FlowOk(FlowOf(s)) && (Flowing(s.writer) ==> Unbroken(FlowOf(s))) && CallsMatch(s.callers, FlowOf(s))
  }

  // Replies only get added, so what the calls report stays true.
  lemma CallsStillMatch(callers: seq<Caller>, f: Flow, g: Flow)
    requires CallsMatch(callers, f) && g.queued == f.queued && f.answered <= g.answered
    requires forall id :: id in f.replies ==> id in g.replies && g.replies[id] == f.replies[id]
    ensures CallsMatch(callers, g)
  {
  }

  lemma IdsTail(queue: seq<Command>)
    requires queue != []
    ensures Ids(queue) == [queue[0].id] + Ids(queue[1..])
  {
  }

  lemma IdsSnoc(queue: seq<Command>, c: Command)
    ensures Ids(queue + [c]) == Ids(queue) + [c.id]
  {
  }

  lemma IdsWithout(queue: seq<Command>, k: nat)
    requires k < |queue|
    ensures Ids(queue[..k] + queue[k + 1..]) == Ids(queue)[..k] + Ids(queue)[k + 1..]
  {
  }

  // ----- the writer -----

  // Resolving the oldest pending send.
  function Resolved(f: Flow, r: Reply): Flow
    requires f.pending != []
  {
    Flow(f.queued, if r.Delivered? then f.answered + [f.pending[0]] else f.answered,
         f.pending[1..], f.replies[f.pending[0] := r])
  }

  // How a writer step moves the flow: it takes a command without resolving it,
  // answers the oldest pending send, or leaves the flow as it is.
  lemma WriterMovesFlow(s: State, ev: WriterEvent, s': State)
    requires WriterStep(s, ev, s')
    ensures var f, g := FlowOf(s), FlowOf(s');
            g.queued == f.queued &&
            match s.writer
            case WReplyOk(c) => f.pending != [] && g == Resolved(f, Delivered)
            case WReplyErr(_, t) => f.pending != [] && g == Resolved(f, Refused(t))
            case WDropCommand(_) => f.pending != [] && g == Resolved(f, Dropped)
            case WDrain => if s.outq.queue == [] then g == f else f.pending != [] && g == Resolved(f, Dropped)
            case _ => g == f
    ensures Flowing(s'.writer) ==> Flowing(s.writer)
  {
    hide WriterStep, WriterEffect, WriterEdge, Answered;
    WriterSummarized(s, ev, s');
    WriterWorksLane(s, ev, s');
    UnansweredMoves(s.core, s.writer, s'.writer);
    if s.outq.queue != [] {
      IdsTail(s.outq.queue);
    }
  }

  lemma UnansweredMoves(c: Core, w: Writer, w': Writer)
    requires WriterEdge(c, w, w')
    ensures Flowing(w') ==> Flowing(w)
    ensures Unanswered(w') == if w.WPollQueues? && w'.WWrite? then [w'.c.id]
                              else if w.WReplyOk? || w.WReplyErr? || w.WDropCommand? then []
                              else Unanswered(w)
    ensures w.WReplyOk? || w.WReplyErr? || w.WDropCommand? ==> Unanswered(w) == [w.c.id]
    ensures w.WPollQueues? || w.WDrain? ==> Unanswered(w) == []
  {
    match w {
      case WPoll => case WPollQueues => case WFlush => case WWrite(_) => case WReadSignal => case WSendClose =>
      case WHandshake => case WHandshakePark => case WHandshakeEnd => case WCloseFlush => case WReadPeer =>
      case WFailSignal(_, _) => case WDrain => case _ =>
    }
  }

  lemma OldestResolves(callers: seq<Caller>, f: Flow, r: Reply)
    requires FlowOk(f) && CallsMatch(callers, f) && f.pending != [] && (r.Delivered? ==> Unbroken(f))
    ensures FlowOk(Resolved(f, r)) && CallsMatch(callers, Resolved(f, r)) && (r.Delivered? ==> Unbroken(Resolved(f, r)))
  {
    hide FlowOk, CallsMatch, Unbroken;
    PendingIsUnanswered(f, f.pending[0]);
    PendingHasNoReply(f);
    if r.Delivered? {
      AnswersOk(f);
    } else {
      assert f.pending[..0] + f.pending[1..] == f.pending[1..];
      Resolves(f, 0, r);
    }
    CallsStillMatch(callers, f, Resolved(f, r));
  }

  lemma WriterKeepsOrder(s: State, ev: WriterEvent, s': State)
    requires WriterStep(s, ev, s') && Ordered(s)
    ensures Ordered(s')
  {
    hide WriterStep, WriterEffect, WriterEdge, Answered, FlowOk, CallsMatch, FlowOf;
    WriterSummarized(s, ev, s');
    WriterMovesFlow(s, ev, s');
    if s.writer.WReplyOk? {
      OldestResolves(s.callers, FlowOf(s), Delivered);
    } else if s.writer.WReplyErr? {
      OldestResolves(s.callers, FlowOf(s), Refused(s.writer.terminal));
    } else if s.writer.WDropCommand? || (s.writer.WDrain? && s.outq.queue != []) {
      OldestResolves(s.callers, FlowOf(s), Dropped);
    }
  }

  lemma PendingHasNoReply(f: Flow)
    requires FlowOk(f)
    ensures forall k :: 0 <= k < |f.pending| ==> f.pending[k] !in f.replies
  {
  }

  // ----- the calls -----

  // What a send that steps without submitting may come to report: what its
  // reply says.
  ghost predicate Honest(i: nat, p: Caller, p': Caller, replies: map<nat, Reply>) {
    && !p'.SWaiting? && (Submitted(p) ==> Submitted(p'))
    && (p'.SLost? ==> p.SWaiting? && i in replies && replies[i].Dropped?)
    && (p'.SendDone? && p'.sent.SendRefused? ==> !Submitted(p))
    && (p'.SendDone? && p'.sent.SentOk? ==> p.SUnreserve? || (p.SWaiting? && i in replies && replies[i].Delivered?))
    && (p'.SendDone? && p'.sent.SendFailed? ==>
          p.SLost? || p.SUnreserve? || (p.SWaiting? && i in replies && replies[i] == Refused(p'.sent.error)))
    && (p.SUnreserve? ==> p' == SendDone(p.sent))
    && (p'.SUnreserve? ==> p'.sent.SendCancelled? || p'.sent.SendRefused?)
  }

  // A send's step submits its command, or reports.
  lemma SenderMovesFlow(s: State, i: nat, ev: CallEvent, s': State)
    requires i < |s.callers| && (AdmitStep(s, i, ev, s') || SendStep(s, i, ev, s'))
    ensures i < |s'.callers| && s'.log.answered == s.log.answered && s'.outq.replies == s.outq.replies
    ensures Sends(s.callers[i]) && Sends(s'.callers[i])
    ensures var p, p' := s.callers[i], s'.callers[i];
            if p.SAdmitted? && p'.SWaiting?
            then s'.log.queued == s.log.queued + [i] && s'.outq.queue == s.outq.queue + [Command(i, p.size)]
            else s'.log.queued == s.log.queued && s'.outq.queue == s.outq.queue && Honest(i, p, p', s.outq.replies)
  {
    hide TerminalError, HasSlot;
    match s.callers[i] {
      case SCheck(_) => case SBytes(_) => case SReserve(_) => case STerminal(_) => case SRefund(_, _) =>
      case SAdmitted(_) => case SUnreserve(_) => case SWaiting => case _ =>
    }
  }

  lemma CallerKeepsOrder(s: State, i: nat, ev: CallEvent, s': State)
    requires Next(s, CallerActs(i, ev), s') && Ordered(s)
    ensures Ordered(s')
  {
    hide CloseStep, BeginCloseStep, AborterStep, AdmitStep, SendStep, ClaimStep, ReceiveStep;
    hide CallerEffect, ControlEdge, Controls, Sends, FlowOk, CallsMatch;
    CallerSummarized(s, i, ev, s');
    OtherCallsLeaveLane(s, i, ev, s');
    if AdmitStep(s, i, ev, s') || SendStep(s, i, ev, s') {
      SenderKeepsOrder(s, i, ev, s');
    } else {
      assert FlowOf(s') == FlowOf(s);
      OthersStillMatch(s.callers, i, s'.callers[i], FlowOf(s));
    }
  }

  lemma OthersStillMatch(callers: seq<Caller>, i: nat, p': Caller, f: Flow)
    requires i < |callers| && CallsMatch(callers, f) && !Sends(callers[i]) && !Sends(p')
    ensures CallsMatch(callers[i := p'], f)
  {
  }

  lemma SubmissionMatches(callers: seq<Caller>, i: nat, f: Flow)
    requires i < |callers| && CallsMatch(callers, f) && callers[i].SAdmitted?
    ensures i !in f.queued
    ensures CallsMatch(callers[i := SWaiting], f.(queued := f.queued + [i], pending := f.pending + [i]))
  {
  }

  lemma ReportMatches(callers: seq<Caller>, i: nat, p': Caller, f: Flow)
    requires i < |callers| && CallsMatch(callers, f) && Honest(i, callers[i], p', f.replies)
    requires forall id :: id in f.replies ==> (f.replies[id].Delivered? <==> id in f.answered)
    ensures CallsMatch(callers[i := p'], f)
  {
  }

  lemma SenderKeepsOrder(s: State, i: nat, ev: CallEvent, s': State)
    requires i < |s.callers| && (AdmitStep(s, i, ev, s') || SendStep(s, i, ev, s')) && Ordered(s)
    requires CallerSummary(s, i, s')
    ensures Ordered(s')
  {
    hide AdmitStep, SendStep, CallerEffect, ControlEdge, Controls, Sends, FlowOk, CallsMatch, Honest;
    SenderMovesFlow(s, i, ev, s');
    var f, g := FlowOf(s), FlowOf(s');
    if s.callers[i].SAdmitted? && s'.callers[i].SWaiting? {
      SubmissionMatches(s.callers, i, f);
      Submits(f, i);
      IdsSnoc(s.outq.queue, Command(i, s.callers[i].size));
      assert g == f.(queued := f.queued + [i], pending := f.pending + [i]);
    } else {
      assert g == f;
      DeliveredAreAnswered(f);
      ReportMatches(s.callers, i, s'.callers[i], f);
    }
  }

  lemma DeliveredAreAnswered(f: Flow)
    requires FlowOk(f)
    ensures forall id :: id in f.replies ==> (f.replies[id].Delivered? <==> id in f.answered)
  {
  }

  // ----- everybody else -----

  lemma AmbientKeepsOrder(s: State, a: Action, s': State)
    requires (Starts(s, a, s') || Ambient(s, a, s')) && Ordered(s)
    ensures Ordered(s')
  {
    hide Quiet, FlowOk;
    var f, g := FlowOf(s), FlowOf(s');
    if a.StrandedDrops? {
      var k := a.at;
      IdsWithout(s.outq.queue, k);
      assert Unanswered(s.writer) == [];
      assert f.pending == Ids(s.outq.queue) && f.pending[k] == s.outq.queue[k].id;
      PendingIsUnanswered(f, f.pending[k]);
      PendingHasNoReply(f);
      Resolves(f, k, Dropped);
      assert g == f.(pending := f.pending[..k] + f.pending[k + 1..], replies := f.replies[f.pending[k] := Dropped]);
      CallsStillMatch(s.callers, f, g);
    } else {
      assert g == f;
    }
  }

  lemma StepKeepsOrder(s: State, a: Action, s': State)
    requires Next(s, a, s') && Ordered(s)
    ensures Ordered(s')
  {
    hide ReaderStep, WriterStep, DogStep, Starts, Ambient, ReaderEdge, ReaderEffect, DogEdge, DogEffect, FlowOk;
    hide CallsMatch;
    hide CloseStep, BeginCloseStep, AborterStep, AdmitStep, SendStep, ClaimStep, ReceiveStep;
    match a {
      case ReaderActs(ev) =>
        ReaderSummarized(s, ev, s');
        ReaderLeavesSends(s, ev, s');
      case WriterActs(ev) => WriterKeepsOrder(s, ev, s');
      case DogActs(k, ev) => DogSummarized(s, k, ev, s');
      case CallerActs(i, ev) => CallerKeepsOrder(s, i, ev, s');
      case _ => AmbientKeepsOrder(s, a, s');
    }
  }

  lemma ReaderLeavesSends(s: State, ev: ReaderEvent, s': State)
    requires ReaderStep(s, ev, s')
    ensures s'.log == s.log.(taken := s'.log.taken, kept := s'.log.kept, discarding := s'.log.discarding)
  {
    if ReaderReads(s, ev, s') {
      match s.reader { case RSelect => case RTop => case _ => }
    } else if QueueInbound(s, ev, s') {
      match s.reader { case RGate(_) => case RAcquire(_) => case _ => }
    } else if ReaderJudges(s, ev, s') {
      match s.reader { case RLoadClosing(_) => case RStoreClosing(_, _) => case _ => }
    } else if FinishPeerClose(s, ev, s') {
      match s.reader { case RPublishPeer(_) => case RSignalPeer(_) => case _ => }
    } else if ReaderWaits(s, ev, s') {
      match s.reader { case RWaitCheck(_, _, _) => case RWaitPark(_, _, _) => case RLateTerminal(_) => case _ => }
    } else if FinishReaderFailure(s, ev, s') {
      match s.reader { case RPublishFailure(_) => case RSignalFailure => case _ => }
    } else if ReaderDrops(s, ev, s') {
      match s.reader { case RDropControl => case RDropInbound => case _ => }
    }
  }

  // ----- what goes out on the wire -----

  ghost predicate ClosesWith(wire: seq<Frame>) { wire != [] && wire[|wire| - 1].CloseFrameOut? }

  function DataCount(wire: seq<Frame>): nat {
    if wire != [] && wire[|wire| - 1].CloseFrameOut? then |wire| - 1 else |wire|
  }

  // Data frames in queue order, then at most one close frame.
  ghost predicate WireOk(wire: seq<Frame>, queued: seq<nat>) {
    && DataCount(wire) <= |queued|
    && forall k :: 0 <= k < DataCount(wire) ==> wire[k] == DataFrame(queued[k])
  }

  // While the writer serves, everything it wrote is answered but for the
  // command in its hands, and it has not seen the signal change.
  ghost predicate WireTimed(s: State) {
    && WireOk(s.log.wire, s.log.queued)
    && (WriterServing(s.writer) || s.writer.WReadSignal? ==> !ClosesWith(s.log.wire))
    && (WriterServing(s.writer) ==> |s.log.wire| == |s.log.answered| + |Unanswered(s.writer)|)
    && s.log.lateAnswers <= 1
    && (s.writer.WPollQueues? || s.writer.WFlush? || s.writer.WWrite? || s.writer.WReplyOk? ==> s.log.lateAnswers == 0)
    && (s.writer.WPoll? || s.writer.WReleaseOk? ==> s.log.lateAnswers == 0 || !s.core.signal.value.Running?)
  }

  lemma WireGrows(wire: seq<Frame>, queued: seq<nat>)
    requires WireOk(wire, queued) && !ClosesWith(wire)
    ensures |wire| < |queued| ==>
              var more := wire + [DataFrame(queued[|wire|])]; WireOk(more, queued) && !ClosesWith(more)
    ensures WireOk(wire + [CloseFrameOut], queued)
  {
  }

  lemma WireLogs(s: State, ev: WriterEvent, s': State)
    requires WriterStep(s, ev, s')
    ensures s'.log.queued == s.log.queued
    ensures if s.writer.WPollQueues? && s'.writer.WWrite?
            then s.outq.queue != [] && s'.log.wire == s.log.wire + [DataFrame(s.outq.queue[0].id)]
              && s'.writer.c == s.outq.queue[0]
            else if s.writer.WReadSignal? && s'.writer.WSendClose? then s'.log.wire == s.log.wire + [CloseFrameOut]
            else s'.log.wire == s.log.wire
    ensures if s.writer.WReplyOk?
            then |s'.log.answered| == |s.log.answered| + 1
                 && s'.log.lateAnswers == s.log.lateAnswers + if s.core.signal.value.Running? then 0 else 1
            else s'.log.answered == s.log.answered && s'.log.lateAnswers == s.log.lateAnswers
  {
    hide WriterStep;
    WriterWorksLane(s, ev, s');
    match s.writer {
      case WPollQueues => case WReplyOk(_) => case WReleaseOk(_) => case WReadSignal => case WReplyErr(_, _) =>
      case WDropCommand(_) => case WRelease(_) => case WShut => case WDrain => case _ =>
    }
  }

  // Serving goes on only from serving, or from a signal still Running.
  lemma ServingMoves(c: Core, w: Writer, seen: nat, w': Writer)
    requires WriterEdge(c, w, w') && WriterOk(c, w, seen)
    ensures WriterServing(w') ==> WriterServing(w)
    ensures w'.WReadSignal? ==> w.WPoll?
    ensures w'.WPollQueues? ==> w.WPoll?
    ensures w'.WFlush? || w'.WWrite? ==> w.WPollQueues?
    ensures w'.WReplyOk? ==> w.WWrite?
    ensures w'.WReleaseOk? ==> w.WReplyOk?
    ensures w'.WSendClose? ==> w.WReadSignal?
    ensures w'.WPoll? ==> w.WPollQueues? || w.WFlush? || w.WReleaseOk?
  {
  }

  lemma WriterKeepsWire(s: State, ev: WriterEvent, s': State)
    requires WriterStep(s, ev, s') && Asserted(s) && Ordered(s) && WireTimed(s)
    ensures WireTimed(s')
  {
    hide WriterStep, WriterEffect, WriterEdge, Answered, FlowOk, CallsMatch, WireOk, ClosesWith;
    hide CoreOk, ReaderOk, DogsOk, CallersOk, RepliesOk, InboundOk, OutboundOk;
    WriterSummarized(s, ev, s');
    WireLogs(s, ev, s');
    ServingMoves(s.core, s.writer, s.writerSeen, s'.writer);
    UnansweredMoves(s.core, s.writer, s'.writer);
    WriterEffectMoves(s.core, s.writer, s.writerSeen);
    VersionZero(s.core);
    if s.writer.WPollQueues? && s'.writer.WWrite? {
      NextInQueue(s);
      WireGrows(s.log.wire, s.log.queued);
    } else if s.writer.WReadSignal? && s'.writer.WSendClose? {
      WireGrows(s.log.wire, s.log.queued);
    }
  }

  lemma NextInQueue(s: State)
    requires Ordered(s) && s.writer.WPollQueues? && s.outq.queue != [] && |s.log.wire| == |s.log.answered|
    ensures |s.log.wire| < |s.log.queued| && s.log.queued[|s.log.wire|] == s.outq.queue[0].id
  {
  }

  lemma VersionZero(c: Core)
    requires CoreOk(c)
    ensures c.signal.version == 0 ==> c.signal.value.Running?
  {
  }

  lemma QueuedGrows(s: State, s': State)
    requires WireTimed(s) && s.log.queued <= s'.log.queued && s'.writer == s.writer && s'.log.wire == s.log.wire
    requires s'.log.answered == s.log.answered && s'.log.lateAnswers == s.log.lateAnswers
    requires Moves(s.core, s'.core)
    ensures WireTimed(s')
  {
  }

  lemma StepKeepsWire(s: State, a: Action, s': State)
    requires Asserted(s) && Ordered(s) && WireTimed(s) && Next(s, a, s')
    ensures WireTimed(s')
  {
    if a.WriterActs? {
      hide Asserted, Ordered, WireTimed, WriterStep;
      WriterKeepsWire(s, a.we, s');
    } else {
      hide Asserted, Ordered, WireTimed, ReaderStep, WriterStep, DogStep, Starts, Ambient;
      hide CloseStep, BeginCloseStep, AborterStep, AdmitStep, SendStep, ClaimStep, ReceiveStep;
      StepKeepsAssertions(s, a, s');
      OthersLeaveWire(s, a, s');
      QueuedGrows(s, s');
    }
  }

  lemma OthersLeaveWire(s: State, a: Action, s': State)
    requires Next(s, a, s') && !a.WriterActs?
    ensures s.log.queued <= s'.log.queued && s'.writer == s.writer && s'.log.wire == s.log.wire
    ensures s'.log.answered == s.log.answered && s'.log.lateAnswers == s.log.lateAnswers
  {
    hide ReaderStep, DogStep, ReaderEdge, ReaderEffect, DogEdge, DogEffect, Quiet;
    hide CloseStep, BeginCloseStep, AborterStep, AdmitStep, SendStep, ClaimStep, ReceiveStep, CallerEffect;
    hide ControlEdge, Controls, Sends;
    match a {
      case ReaderActs(ev) =>
        ReaderSummarized(s, ev, s');
        ReaderLeavesSends(s, ev, s');
      case DogActs(k, ev) => DogSummarized(s, k, ev, s');
      case CallerActs(i, ev) =>
        CallerSummarized(s, i, ev, s');
        OtherCallsLeaveLane(s, i, ev, s');
        if AdmitStep(s, i, ev, s') {
          AdmitSummary(s, i, ev, s');
        } else if SendStep(s, i, ev, s') {
          SendLogs(s, i, ev, s');
        }
      case _ =>
    }
  }

  lemma SendLogs(s: State, i: nat, ev: CallEvent, s': State)
    requires i < |s.callers| && SendStep(s, i, ev, s')
    ensures s'.log == s.log.(queued := s'.log.queued) && s.log.queued <= s'.log.queued
  {
  }

  // ----- the main statements -----

  // Sends answered Ok are a prefix of queue order, each accepted send is
  // answered at most once and none is lost, and what a call reports is its
  // own reply.
  lemma SendsResolveInOrder(s: State)
    requires Ordered(s)
    ensures s.log.answered <= s.log.queued && Distinct(s.log.queued)
    ensures forall i :: 0 <= i < |s.callers| && s.callers[i].SWaiting? ==>
              (i in s.outq.replies) != (i in Pending(s))
    ensures forall i :: 0 <= i < |s.callers| && s.callers[i] == SendDone(SentOk) ==> i in s.log.answered
  {
  }
}
