// What comes of each write, flush and close frame on the wire (src/driver.rs,
// run_writer and close_writer): a send is answered Ok if and only if its write
// has succeeded, and an error of the wire, and nothing else, is a writer failure.
module Writes {
  import opened Errors
  import opened Cells
  import opened Lanes
  import opened Machine
  import opened Effects
  import opened Assertions
  import opened Outflow
  import opened SendOrder
  import opened Runs
  import opened Fairness
  import Counting
  import Timers
  import Inflow
  import Settling

  // ----- one step of the writer -----

  // What an error of the wire is reported as, and the send that it fails.
  function IoFailure(w: Writer, text: string): DriverError {
    match w
    case WFlush => FLUSH_FAILED
    case WWrite(_) => Transport("WebSocket send failed: " + text)
    case _ => Transport("WebSocket close failed: " + text)
  }

  function OnWireSend(w: Writer): Option<Command> { if w.WWrite? then Some(w.c) else None }

  // The write of a send succeeds.
  ghost predicate WritesAt(s: State, a: Action, id: nat) {
    a == WriterActs(WIoOk) && s.writer.WWrite? && s.writer.c.id == id
  }

  // The wire fails.
  ghost predicate FailsAt(s: State, a: Action, e: DriverError, held: Option<Command>) {
    && a.WriterActs? && a.we.WIoError? && OnTheWire(s.writer)
    && e == IoFailure(s.writer, a.we.text) && held == OnWireSend(s.writer)
  }

  // The flush before the end of the close succeeds.
  ghost predicate FlushesAt(s: State, a: Action) { a == WriterActs(WIoOk) && s.writer.WCloseFlush? }

  // How the writer comes to the points where results count.
  ghost predicate ResultsCount(s: State, ev: WriterEvent, s': State) {
    && (s'.writer.WReplyOk? ==> s.writer == WWrite(s'.writer.c) && ev.WIoOk?)
    && (s.writer.WWrite? && ev.WIoOk? ==> s'.writer == WReplyOk(s.writer.c))
    && (ev.WIoError? ==> OnTheWire(s.writer) && s'.writer == WFail(IoFailure(s.writer, ev.text), OnWireSend(s.writer)))
    && (s'.writer.WFail? ==> ev.WIoError? || (s'.writer == WFail(READER_STOPPED, None) && s.control.closed))
    && (ev.WControlClosed? ==> s'.writer == WFail(READER_STOPPED, None))
    && (ev.WOutboundClosed? ==> s'.writer.WShut?)
    && (s'.writer.WReadPeer? ==>
          (s.writer.WCloseFlush? && ev.WIoOk?) || (s.writer.WHandshakeEnd? && s.core.signal.value.Abort?))
    && (s'.writer.WCloseFlush? || s'.writer.WSendClose? ==> !s.core.signal.value.Abort?)
    && (s'.writer.WPublishPeer? ==> s.writer.WReadPeer? && s.core.state.value.PeerClosed?)
    && (s'.writer.WSendClose? ==> s.writer.WReadSignal? && s.core.signal.value.LocalClose?)
    && (s'.writer.WHandshake? ==> s.writer.WSendClose? || s.writer.WHandshakePark?)
    && (s'.writer.WHandshakePark? ==> s.writer.WHandshake?)
  }

  lemma ServingCounts(s: State, ev: WriterEvent, s': State)
    requires WriterServes(s, ev, s')
    ensures ResultsCount(s, ev, s')
  {
    match s.writer {
      case WPoll => case WPollQueues => case WFlush => case WWrite(_) => case WReplyOk(_) => case _ =>
    }
  }

  lemma ClosingCounts(s: State, ev: WriterEvent, s': State)
    requires CloseWriter(s, ev, s')
    ensures ResultsCount(s, ev, s')
  {
    match s.writer { case WSendClose => case WHandshake => case WHandshakePark => case WHandshakeEnd => case _ => }
  }

  lemma LeavingCounts(s: State, ev: WriterEvent, s': State)
    requires WriterHeeds(s, ev, s') || WriterLeaves(s, ev, s')
    ensures ResultsCount(s, ev, s')
  {
    hide SetState, SetSignal, SetTasks, Answer, Release, Shut, DropHead, FailureValue;
    match s.writer {
      case WReadSignal => case WReadPeer => case WPublishPeer(_) => case WFail(_, _) => case WFailSignal(_, _) =>
      case WReplyErr(_, _) => case WDropCommand(_) => case WRelease(_) => case WShut => case WDrain => case _ =>
    }
  }

  lemma StepCounts(s: State, ev: WriterEvent, s': State)
    requires WriterStep(s, ev, s')
    ensures ResultsCount(s, ev, s')
  {
    hide WriterServes, WriterHeeds, CloseWriter, WriterLeaves;
    if ev.WAborted? && WriterParked(s.writer) && s' == WriterUnwinds(s) && s.core.writerAbort {
    } else {
      hide ResultsCount;
      if WriterServes(s, ev, s') {
        ServingCounts(s, ev, s');
      } else if CloseWriter(s, ev, s') {
        ClosingCounts(s, ev, s');
      } else {
        LeavingCounts(s, ev, s');
      }
    }
  }

  // ----- what the writer's position tells of the run -----

  ghost predicate WrittenBy(states: seq<State>, acts: seq<Action>, k: nat, id: nat)
    requires |states| == |acts| + 1 && k <= |acts|
  {
    exists m :: 0 <= m < k && WritesAt(states[m], acts[m], id)
  }

  ghost predicate FailedBy(states: seq<State>, acts: seq<Action>, k: nat, e: DriverError, held: Option<Command>)
    requires |states| == |acts| + 1 && k <= |acts|
  {
    exists m :: 0 <= m < k && FailsAt(states[m], acts[m], e, held)
  }

  ghost predicate FlushedBy(states: seq<State>, acts: seq<Action>, k: nat)
    requires |states| == |acts| + 1 && k <= |acts|
  {
    exists m :: 0 <= m < k && FlushesAt(states[m], acts[m])
  }

  // close() had begun a local close.
  ghost predicate LocalCloseBy(states: seq<State>, k: nat)
    requires k <= |states|
  {
    exists m :: 0 <= m < k && states[m].core.signal.value.LocalClose?
  }

  // Answered Ok, or about to be.
  ghost predicate Served(s: State, id: nat) {
    id in s.log.answered || (s.writer.WReplyOk? && s.writer.c.id == id)
  }

  ghost predicate InHandshake(w: Writer) { w.WSendClose? || w.WHandshake? || w.WHandshakePark? }

  ghost predicate WriterTraced(states: seq<State>, acts: seq<Action>, k: nat)
    requires |states| == |acts| + 1 && k <= |acts|
  {
    var s := states[k];
    && (forall id :: Served(s, id) <==> WrittenBy(states, acts, k, id))
    && (s.writer.WFail? ==>
          FailedBy(states, acts, k, s.writer.e, s.writer.held)
          || (s.writer == WFail(READER_STOPPED, None) && IsClosed(s.core)))
    && (s.writer.WReadPeer? ==> FlushedBy(states, acts, k) || IsClosed(s.core))
    && (s.writer.WPublishPeer? ==> FlushedBy(states, acts, k))
    && (InHandshake(s.writer) ==> ClosesWith(s.log.wire))
    && (ClosesWith(s.log.wire) ==> LocalCloseBy(states, k))
  }

  lemma PastGrows(states: seq<State>, acts: seq<Action>, k: nat)
    requires |states| == |acts| + 1 && k < |acts|
    ensures forall id :: WrittenBy(states, acts, k + 1, id) <==>
                         WrittenBy(states, acts, k, id) || WritesAt(states[k], acts[k], id)
    ensures forall e, held :: FailedBy(states, acts, k, e, held) || FailsAt(states[k], acts[k], e, held) ==>
                              FailedBy(states, acts, k + 1, e, held)
    ensures FlushedBy(states, acts, k) || FlushesAt(states[k], acts[k]) ==> FlushedBy(states, acts, k + 1)
    ensures LocalCloseBy(states, k) || states[k].core.signal.value.LocalClose? ==> LocalCloseBy(states, k + 1)
  {
    hide WritesAt, FailsAt, FlushesAt;
  }

  lemma WriterServesOnly(s: State, ev: WriterEvent, s': State, id: nat)
    requires WriterStep(s, ev, s')
    ensures Served(s', id) <==> Served(s, id) || WritesAt(s, WriterActs(ev), id)
  {
    hide WriterStep;
    StepCounts(s, ev, s');
    WriterWorksLane(s, ev, s');
    ReplyOkAnswers(s, ev, s');
  }

  lemma ReplyOkAnswers(s: State, ev: WriterEvent, s': State)
    requires WriterStep(s, ev, s')
    ensures s.writer.WReplyOk? ==> s'.writer == WReleaseOk(s.writer.c)
    ensures s.writer.WReplyOk? || s'.log.answered == s.log.answered
    ensures s.writer.WReplyOk? ==> s'.log.answered == s.log.answered + [s.writer.c.id]
  {
    hide WriterStep, WriterEffect, Answered;
    WriterSummarized(s, ev, s');
    WriterWorksLane(s, ev, s');
  }

  lemma StepIsTraced(states: seq<State>, acts: seq<Action>, k: nat)
    requires |states| == |acts| + 1 && k < |acts| && Next(states[k], acts[k], states[k + 1])
    requires Sound(states[k]) && WriterTraced(states, acts, k)
    ensures WriterTraced(states, acts, k + 1)
  {
    hide Sound, Served, WrittenBy, FailedBy, FlushedBy, LocalCloseBy, WritesAt;
    PastGrows(states, acts, k);
    var s, s' := states[k], states[k + 1];
    SoundCore(s);
    if acts[k].WriterActs? {
      hide ClosesWith, Next;
      WriterStepIsTraced(s, acts[k].we, s');
      forall id ensures Served(s', id) <==> Served(s, id) || WritesAt(s, acts[k], id) {
        WriterServesOnlyNext(s, acts[k].we, s', id);
      }
    } else {
      hide Next, ClosesWith;
      OthersLeaveWire(s, acts[k], s');
      StepIsSound(s, acts[k], s');
      NobodyElseWrites(s, acts[k], s');
    }
  }

  lemma WriterServesOnlyNext(s: State, ev: WriterEvent, s': State, id: nat)
    requires Next(s, WriterActs(ev), s')
    ensures Served(s', id) <==> Served(s, id) || WritesAt(s, WriterActs(ev), id)
  {
    hide WriterStep;
    WriterServesOnly(s, ev, s', id);
  }

  lemma NobodyElseWrites(s: State, a: Action, s': State)
    requires !a.WriterActs? && s'.writer == s.writer && s'.log.answered == s.log.answered
    ensures forall id :: !WritesAt(s, a, id) && (Served(s', id) <==> Served(s, id))
  {
  }

  lemma SoundCore(s: State)
    requires Sound(s)
    ensures CoreOk(s.core) && (s.control.closed ==> IsClosed(s.core))
  {
    hide CoreOk, ReaderOk, WriterOk, DogsOk, CallersOk, RepliesOk, InboundOk, OutboundOk, Counting.Counted;
    hide Counting.OneWatchdog, Timers.Timed, Conserved, Ordered, WireTimed, Inflow.Delivering, Settling.Owed;
    hide Settling.Settled;
  }

  // One step of the writer, for the clauses about its position.
  lemma WriterStepIsTraced(s: State, ev: WriterEvent, s': State)
    requires Next(s, WriterActs(ev), s') && CoreOk(s.core) && (s.control.closed ==> IsClosed(s.core))
    ensures s'.writer.WFail? ==>
              FailsAt(s, WriterActs(ev), s'.writer.e, s'.writer.held)
              || (s'.writer == WFail(READER_STOPPED, None) && IsClosed(s'.core))
    ensures s'.writer.WReadPeer? ==> FlushesAt(s, WriterActs(ev)) || IsClosed(s'.core)
    ensures s'.writer.WPublishPeer? ==> s.writer.WReadPeer? && !IsClosed(s.core)
    ensures InHandshake(s'.writer) ==> InHandshake(s.writer) || ClosesWith(s'.log.wire)
    ensures s'.log.wire == s.log.wire || s.core.signal.value.LocalClose? || !ClosesWith(s'.log.wire)
    ensures InHandshake(s.writer) ==> s'.log.wire == s.log.wire
  {
    hide WriterStep, WriterEdge, Answered;
    StepCounts(s, ev, s');
    WriterSummarized(s, ev, s');
    WireLogs(s, ev, s');
    IdleWriterKeepsState(s.core, s.writer);
  }

  lemma IdleWriterKeepsState(c: Core, w: Writer)
    ensures w.WPublishPeer? || w.WFail? || WriterEffect(c, w).state == c.state
    ensures IsClosed(c) ==> IsClosed(WriterEffect(c, w))
  {
  }

  lemma {:induction false} RunIsTraced(states: seq<State>, acts: seq<Action>, k: nat)
    requires Run(states, acts) && k < |states|
    ensures WriterTraced(states, acts, k)
  {
    hide Init, Next, Sound, WriterTraced;
    if k == 0 {
      InitIsTraced(states, acts);
    } else {
      RunIsTraced(states, acts, k - 1);
      RunIsSound(states, acts, k - 1);
      StepIsTraced(states, acts, k - 1);
    }
  }

  lemma InitIsTraced(states: seq<State>, acts: seq<Action>)
    requires |states| == |acts| + 1 && Init(states[0])
    ensures WriterTraced(states, acts, 0)
  {
  }

  // ----- answered if and only if written -----

  // A send is answered Ok, or about to be, if and only if the write of its
  // message has succeeded.
  lemma AnsweredIfWritten(states: seq<State>, acts: seq<Action>, k: nat, id: nat)
    requires Run(states, acts) && k < |states|
    ensures Served(states[k], id) <==> WrittenBy(states, acts, k, id)
  {
    hide Init, Next, WrittenBy, Served;
    RunIsTraced(states, acts, k);
  }

  // ----- what an error of the wire comes to -----

  // At j the writer publishes its failure: it becomes the final value unless an
  // outcome is known already.
  ghost predicate PublishesFailure(s: State, a: Action, e: DriverError, held: Option<Command>) {
    a.WriterActs? && s.writer == WFail(e, held)
  }

  function FailureOutcome(d: DriverState, e: DriverError): DriverError {
    match d
    case Open => e
    case Closing => e
    case PeerClosed(known) => known
    case Closed(known) => known
  }

  // The send in the writer's hands is on its way to be refused, or has been.
  ghost predicate Refuses(s: State, c: Command, t: DriverError) {
    || s.writer == WFailSignal(t, Some(c)) || s.writer == WReplyErr(c, t)
    || (c.id in s.outq.replies && s.outq.replies[c.id] == Refused(t))
  }

  ghost predicate FailureIsOut(
    states: seq<State>, acts: seq<Action>, j: nat, k: nat, e: DriverError, held: Option<Command>)
    requires |states| == |acts| + 1 && j < k <= |acts|
  {
    var t := FailureOutcome(states[j].core.state.value, e);
    && PublishesFailure(states[j], acts[j], e, held)
    && states[k].core.state.value == Closed(t)
    && (held.Some? ==> Refuses(states[k], held.value, t))
  }

  lemma FailurePublishes(s: State, ev: WriterEvent, s': State)
    requires Next(s, WriterActs(ev), s') && s.writer.WFail?
    ensures var t := FailureOutcome(s.core.state.value, s.writer.e);
            s'.core.state.value == Closed(t) && s'.writer == WFailSignal(t, s.writer.held)
  {
    hide WriterStep, Answered;
    WriterSummarized(s, ev, s');
  }

  lemma RefusalGoesOn(s: State, a: Action, s': State, c: Command, t: DriverError)
    requires Sound(s) && Next(s, a, s') && Refuses(s, c, t)
    ensures Refuses(s', c, t)
  {
    hide Next, Sound;
    RepliesStand(s, a, s');
    OnlyOwnSteps(s, Some(a), s');
    if a.WriterActs? && !(c.id in s.outq.replies && s.outq.replies[c.id] == Refused(t)) {
      WriterRefuses(s, a.we, s', c, t);
    }
  }

  lemma WriterRefuses(s: State, ev: WriterEvent, s': State, c: Command, t: DriverError)
    requires Next(s, WriterActs(ev), s') && (s.writer == WFailSignal(t, Some(c)) || s.writer == WReplyErr(c, t))
    ensures s.writer.WFailSignal? ==> s'.writer == WReplyErr(c, t)
    ensures s.writer.WReplyErr? ==> c.id in s'.outq.replies && s'.outq.replies[c.id] == Refused(t)
  {
    hide WriterStep, WriterEffect;
    WriterSummarized(s, ev, s');
  }

  // A reply is given once.
  lemma RepliesStand(s: State, a: Action, s': State)
    requires Sound(s) && Next(s, a, s')
    ensures forall id :: id in s.outq.replies ==> id in s'.outq.replies && s'.outq.replies[id] == s.outq.replies[id]
  {
    hide Next, Sound;
    SoundOrders(s);
    if a.WriterActs? {
      WriterRepliesOnce(s, a.we, s');
    } else if a.StrandedDrops? {
      StrandedRepliesOnce(s, a, s');
    } else {
      SeenStaysSeen(s, a, s');
    }
  }

  lemma SoundOrders(s: State)
    requires Sound(s)
    ensures FlowOk(FlowOf(s)) && RepliesOk(s.core, s.outq.replies)
  {
    hide CoreOk, ReaderOk, WriterOk, DogsOk, CallersOk, RepliesOk, InboundOk, OutboundOk, Counting.Counted;
    hide Counting.OneWatchdog, Timers.Timed, Conserved, WireTimed, Inflow.Delivering, Settling.Owed;
    hide Settling.Settled, FlowOk, CallsMatch;
  }

  lemma WriterRepliesOnce(s: State, ev: WriterEvent, s': State)
    requires Next(s, WriterActs(ev), s') && FlowOk(FlowOf(s))
    ensures forall id :: id in s.outq.replies ==> id in s'.outq.replies && s'.outq.replies[id] == s.outq.replies[id]
  {
    hide WriterStep, FlowOk, FlowOf;
    WriterMovesFlow(s, ev, s');
    PendingHasNoReply(FlowOf(s));
    SameReplies(s);
    SameReplies(s');
  }

  lemma SameReplies(s: State)
    ensures FlowOf(s).replies == s.outq.replies
  {
  }

  lemma StrandedRepliesOnce(s: State, a: Action, s': State)
    requires Next(s, a, s') && a.StrandedDrops? && FlowOk(FlowOf(s))
    ensures forall id :: id in s.outq.replies ==> id in s'.outq.replies && s'.outq.replies[id] == s.outq.replies[id]
  {
    hide FlowOk;
    PendingHasNoReply(FlowOf(s));
    var k := a.at;
    assert Unanswered(s.writer) == [];
    assert Pending(s)[k] == s.outq.queue[k].id;
  }

  // An error of the wire is published: the state becomes Closed with it, or
  // with an outcome that was known before, and the send that was being written
  // is refused with that value and never answered Ok.
  lemma {:induction false} WireErrorIsPublished(states: seq<State>, acts: seq<Action>, m: nat, k: nat)
    returns (j: nat)
    requires Run(states, acts) && m < k < |states| && acts[m].WriterActs? && acts[m].we.WIoError?
    ensures var e, held := IoFailure(states[m].writer, acts[m].we.text), OnWireSend(states[m].writer);
            && OnTheWire(states[m].writer)
            && m < j <= k
            && (if j == k then states[k].writer == WFail(e, held) else FailureIsOut(states, acts, j, k, e, held))
            && (held.Some? ==> held.value.id !in states[k].log.answered)
    decreases k
  {
    hide Init, Next, Sound, FailureIsOut, Refuses, IoFailure, OnTheWire;
    var s := states[m];
    StepFails(s, acts[m].we, states[m + 1]);
    var e, held := IoFailure(s.writer, acts[m].we.text), OnWireSend(s.writer);
    RunIsSound(states, acts, k);
    if m + 1 == k {
      j := k;
    } else {
      j := WireErrorIsPublished(states, acts, m, k - 1);
      RunIsSound(states, acts, k - 1);
      FailureGoesOn(states, acts, j, k - 1, e, held);
      if j == k - 1 && !acts[j].WriterActs? {
        j := k;
      }
    }
    if held.Some? {
      RefusedIsUnanswered(states, acts, j, k, e, held);
    }
  }

  lemma StepFails(s: State, ev: WriterEvent, s': State)
    requires Next(s, WriterActs(ev), s') && ev.WIoError?
    ensures OnTheWire(s.writer) && s'.writer == WFail(IoFailure(s.writer, ev.text), OnWireSend(s.writer))
  {
    hide WriterStep;
    StepCounts(s, ev, s');
  }

  lemma FailureGoesOn(states: seq<State>, acts: seq<Action>, j: nat, k: nat, e: DriverError, held: Option<Command>)
    requires Run(states, acts) && j <= k < |acts| && Sound(states[k])
    requires if j == k then states[k].writer == WFail(e, held) else FailureIsOut(states, acts, j, k, e, held)
    ensures j < k || acts[k].WriterActs? ==> FailureIsOut(states, acts, j, k + 1, e, held)
    ensures j == k && !acts[k].WriterActs? ==> states[k + 1].writer == WFail(e, held)
  {
    hide Init, Next, Sound, Refuses, Onward;
    var t := FailureOutcome(states[j].core.state.value, e);
    if j < k {
      RunOnward(states, acts, k, k + 1);
      FinalIsFinal(states[k].core, states[k + 1].core);
      if held.Some? {
        RefusalGoesOn(states[k], acts[k], states[k + 1], held.value, t);
      }
    } else if acts[k].WriterActs? {
      FailurePublishes(states[k], acts[k].we, states[k + 1]);
      if held.Some? {
        assert Refuses(states[k + 1], held.value, t) by { RefusalBegins(states[k + 1], held.value, t); }
      }
    } else {
      OnlyOwnSteps(states[k], Some(acts[k]), states[k + 1]);
    }
  }

  lemma RefusalBegins(s: State, c: Command, t: DriverError)
    requires s.writer == WFailSignal(t, Some(c))
    ensures Refuses(s, c, t)
  {
  }

  lemma RefusedIsUnanswered(
    states: seq<State>, acts: seq<Action>, j: nat, k: nat, e: DriverError, held: Option<Command>)
    requires Run(states, acts) && j <= k < |states| && held.Some? && Sound(states[k])
    requires if j == k then states[k].writer == WFail(e, held) else FailureIsOut(states, acts, j, k, e, held)
    ensures held.value.id !in states[k].log.answered
  {
    hide Init, Next, Sound, FlowOk;
    SoundOrders(states[k]);
    HeldIsUnanswered(states[k], held.value);
  }

  lemma HeldIsUnanswered(s: State, c: Command)
    requires FlowOk(FlowOf(s))
    requires (HeldBy(s.writer) == Some(c) && !s.writer.WReleaseOk? && !s.writer.WRelease?)
             || (c.id in s.outq.replies && s.outq.replies[c.id].Refused?)
    ensures c.id !in s.log.answered
  {
    if HeldBy(s.writer) == Some(c) && !s.writer.WReleaseOk? && !s.writer.WRelease? {
      assert Pending(s)[0] == c.id;
      PendingIsUnanswered(FlowOf(s), c.id);
    }
  }

  // ----- where a failure of the writer comes from -----

  // The writer fails only when the wire has failed: its failure is the error of
  // a write, flush or close, unless the state is Closed already.
  lemma WriterFailsOnlyOnErrors(states: seq<State>, acts: seq<Action>, k: nat)
    requires Run(states, acts) && k < |states| && states[k].writer.WFail?
    ensures FailedBy(states, acts, k, states[k].writer.e, states[k].writer.held) || IsClosed(states[k].core)
  {
    hide Init, Next, FailedBy, WrittenBy, Served;
    RunIsTraced(states, acts, k);
  }

  // ----- the close frame and the last flush -----

  // The driver writes a close frame only after a local close has begun, and the
  // writer waits for the peer's answer only after it has written one.
  lemma CloseFrameFollowsLocalClose(states: seq<State>, acts: seq<Action>, k: nat)
    requires Run(states, acts) && k < |states|
    ensures ClosesWith(states[k].log.wire) ==> LocalCloseBy(states, k)
    ensures InHandshake(states[k].writer) ==> ClosesWith(states[k].log.wire)
  {
    hide Init, Next, FailedBy, WrittenBy, Served, ClosesWith, LocalCloseBy;
    RunIsTraced(states, acts, k);
  }

  // Once the signal is Abort the writer begins neither a close frame nor the
  // flush of a close.
  lemma NoCloseAfterAbort(states: seq<State>, acts: seq<Action>, k: nat)
    requires Run(states, acts) && k < |acts| && acts[k].WriterActs? && states[k].core.signal.value.Abort?
    ensures !states[k + 1].writer.WSendClose? && !states[k + 1].writer.WCloseFlush?
  {
    hide Init, WriterStep;
    StepCounts(states[k], acts[k].we, states[k + 1]);
  }

  // The writer publishes the peer's outcome only after a successful flush, so
  // that the reply to the peer's close has gone out.
  lemma OutcomeFollowsFlush(states: seq<State>, acts: seq<Action>, k: nat)
    requires Run(states, acts) && k < |states| && states[k].writer.WPublishPeer?
    ensures FlushedBy(states, acts, k)
  {
    hide Init, Next, FailedBy, WrittenBy, Served, ClosesWith;
    RunIsTraced(states, acts, k);
  }
}
