// Queued sends are written (src/driver.rs, run_writer and next_writer_event): on
// a fair run, while the wire responds and the peer does not keep pinging, the
// writer comes to every command in its queue.
module Sending {
  import opened Errors
  import opened Lanes
  import opened Machine
  import opened Effects
  import opened Assertions
  import opened Outflow
  import opened SendOrder
  import opened Runs
  import opened Fairness
  import opened Liveness
  import opened Writes
  import opened Flushing
  import Counting
  import Timers
  import Inflow
  import Settling

  // Commands before the one of send i.
  function Position(queue: seq<Command>, i: nat): nat {
    if queue == [] || queue[0].id == i then 0 else 1 + Position(queue[1..], i)
  }

  lemma {:induction false} AppendKeepsPosition(queue: seq<Command>, c: Command, i: nat)
    requires Queues(queue, i)
    ensures Queues(queue + [c], i) && Position(queue + [c], i) == Position(queue, i)
  {
    var k :| 0 <= k < |queue| && queue[k].id == i;
    assert (queue + [c])[k].id == i;
    if queue[0].id != i {
      assert queue[1..][k - 1].id == i;
      AppendKeepsPosition(queue[1..], c, i);
      assert (queue + [c])[1..] == queue[1..] + [c];
    }
  }

  lemma TakingAdvances(queue: seq<Command>, i: nat)
    requires Queues(queue, i) && queue[0].id != i
    ensures Queues(queue[1..], i) && Position(queue, i) == Position(queue[1..], i) + 1
  {
    var k :| 0 <= k < |queue| && queue[k].id == i;
    assert queue[1..][k - 1].id == i;
  }

  // Nothing more is promised to send i.
  ghost predicate SendSettled(s: State, i: nat) {
    IsClosed(s.core) || !s.core.signal.value.Running? || i in s.log.answered
  }

  ghost predicate InHand(w: Writer, i: nat) { HeldBy(w).Some? && HeldBy(w).value.id == i && !w.WReleaseOk? }

  function HandSteps(w: Writer): nat { if w.WWrite? then 3 else if w.WReplyOk? then 2 else 1 }

  // Steps of the writer up to its next look at the queues.
  function PollSteps(w: Writer): nat {
    match w
    case WPollQueues => 1
    case WPoll => 2
    case WReleaseOk(_) => 3
    case WReplyOk(_) => 4
    case WWrite(_) => 5
    case WFlush => 3
    case _ => 0
  }

  ghost function WriteRank(s: State, i: nat, cap: nat): nat {
    if SendSettled(s, i) then 0
    else if InHand(s.writer, i) then HandSteps(s.writer)
    else if Queues(s.outq.queue, i) then
      100 * (Position(s.outq.queue, i) + 1) + 10 * (s.control.pending + Requesting(s.reader)) + PollSteps(s.writer)
    else cap
  }

  // ----- the writer comes nearer -----

  lemma ServingWriter(s: State)
    requires Sound(s) && !IsClosed(s.core) && s.core.signal.value.Running?
    ensures WriterServing(s.writer) || s.writer.WFail?
    ensures s.core.signal.version <= s.writerSeen
    ensures !s.control.closed && !s.core.writerAbort && !s.outq.abandoned
    ensures WriterReady(s.core, s.writer, s.writerSeen) || OnTheWire(s.writer)
  {
    hide ReaderOk, DogsOk, CallersOk, RepliesOk, InboundOk, Justified;
    hide Counting.Counted, Counting.OneWatchdog, Timers.Timed, Settling.Owed, Settling.Settled;
    hide Conserved, Ordered, WireTimed, Inflow.Delivering;
  }

  // A step of the writer while it serves an open connection.
  ghost predicate ServesOn(s: State, s': State) {
    match s.writer
    case WPoll => s'.writer.WPollQueues? && SameQueues(s, s')
    case WPollQueues =>
      || (s'.writer.WFlush? && s'.outq == s.outq && s.control.pending > 0
          && s'.control.pending == s.control.pending - 1)
      || (s.outq.queue != [] && s'.writer == WWrite(s.outq.queue[0]) && s'.outq.queue == s.outq.queue[1..]
          && s'.control == s.control)
      || (s.outq.queue == [] && s'.writer.WPoll?)
    case WFlush => (s'.writer.WPoll? || s'.writer.WFail?) && SameQueues(s, s') && OnWireSend(s.writer).None?
                   && (s'.writer.WFail? ==> s'.writer.held.None?)
    case WWrite(c) => (s'.writer == WReplyOk(c) || (s'.writer.WFail? && s'.writer.held == Some(c))) && SameQueues(s, s')
    case WReplyOk(c) => s'.writer == WReleaseOk(c) && SameQueues(s, s') && c.id in s'.log.answered
    case WReleaseOk(_) => s'.writer.WPoll? && SameQueues(s, s')
    case WFail(_, _) => IsClosed(s'.core)
    case _ => false
  }

  ghost predicate SameQueues(s: State, s': State) { s'.outq.queue == s.outq.queue && s'.control == s.control }

  lemma ServingStep(s: State, ev: WriterEvent, s': State)
    requires WriterServes(s, ev, s') && !s.control.closed && !s.outq.abandoned
    requires s.core.signal.version <= s.writerSeen
    ensures ServesOn(s, s') && s'.reader == s.reader
  {
    match s.writer {
      case WPoll => case WPollQueues => case WFlush => case WWrite(_) => case WReplyOk(_) => case _ =>
    }
  }

  lemma FailingStep(s: State, ev: WriterEvent, s': State)
    requires Next(s, WriterActs(ev), s') && s.writer.WFail?
    ensures ServesOn(s, s') && s'.reader == s.reader
  {
    hide WriterStep, Answered, WriterEdge;
    WriterSummarized(s, ev, s');
  }

  lemma ServersServe(s: State, ev: WriterEvent, s': State)
    requires WriterStep(s, ev, s') && WriterServing(s.writer) && !s.core.writerAbort
    ensures WriterServes(s, ev, s')
  {
    hide WriterServes;
    match s.writer {
      case WPoll => case WPollQueues => case WFlush => case WWrite(_) => case WReplyOk(_) =>
      case WReleaseOk(_) => case _ =>
    }
  }

  lemma WriterServesOpen(s: State, ev: WriterEvent, s': State)
    requires Sound(s) && Next(s, WriterActs(ev), s') && !IsClosed(s.core) && s.core.signal.value.Running?
    ensures ServesOn(s, s') && s'.reader == s.reader
  {
    hide Sound, WriterServes, WriterStep, ServesOn;
    ServingWriter(s);
    if s.writer.WFail? {
      FailingStep(s, ev, s');
    } else {
      ServersServe(s, ev, s');
      ServingStep(s, ev, s');
    }
  }

  lemma ServingNears(s: State, s': State, i: nat, cap: nat)
    requires ServesOn(s, s') && s'.reader == s.reader && 0 < WriteRank(s, i, cap) < cap
    ensures WriteRank(s', i, cap) < WriteRank(s, i, cap)
  {
    hide Position;
    if !InHand(s.writer, i) && s.writer.WPollQueues? && s'.writer.WWrite? && s.outq.queue[0].id != i {
      TakingAdvances(s.outq.queue, i);
    }
    match s.writer {
      case WPoll => case WPollQueues => case WFlush => case WWrite(_) => case WReplyOk(_) =>
      case WReleaseOk(_) => case _ =>
    }
  }

  // ----- nobody else sets it back -----

  ghost predicate Pinged(a: Option<Action>) { a == Some(ReaderActs(RWire(PingOrPong))) }

  // Everybody else only adds behind it.
  lemma OthersSetNothingBack(s: State, a: Action, s': State, i: nat)
    requires Sound(s) && Next(s, a, s') && !a.WriterActs? && !Pinged(Some(a))
    requires !IsClosed(s.core) && s.core.signal.value.Running?
    ensures s'.control.pending + Requesting(s'.reader) <= s.control.pending + Requesting(s.reader)
    ensures s'.outq.queue == s.outq.queue || exists c :: s'.outq.queue == s.outq.queue + [c]
    ensures s'.writer == s.writer && s'.log.answered == s.log.answered
  {
    hide ReaderStep, DogStep, ReaderEdge, ReaderEffect, DogEdge, DogEffect, Quiet, Sound, Honest;
    hide CloseStep, BeginCloseStep, AborterStep, AdmitStep, SendStep, ClaimStep, ReceiveStep, CallerEffect;
    hide ControlEdge, Controls, Sends;
    ServingWriter(s);
    OthersLeaveWire(s, a, s');
    match a {
      case ReaderActs(ev) =>
        ReaderRequests(s, ev, s');
        ReaderSummarized(s, ev, s');
      case DogActs(k, ev) => DogSummarized(s, k, ev, s');
      case CallerActs(j, ev) =>
        CallerSummarized(s, j, ev, s');
        OtherCallsLeaveLane(s, j, ev, s');
        if AdmitStep(s, j, ev, s') || SendStep(s, j, ev, s') {
          SenderMovesFlow(s, j, ev, s');
        }
      case _ =>
    }
  }

  lemma WritingDescends(s: State, a: Option<Action>, s': State, i: nat, cap: nat)
    requires Sound(s) && StepOrStay(s, a, s') && !Pinged(a)
    ensures Falls(cap, WriteRank(s, i, cap), Ready(s, TheWriter) || OnTheWire(s.writer),
                  WriteRank(s', i, cap), Performs(a, TheWriter))
  {
    hide Sound, Next, Position, OnTheWire, WriterReady, ServesOn;
    if 0 < WriteRank(s, i, cap) < cap {
      ServingWriter(s);
      if a.Some? {
        if a.value.WriterActs? {
          WriterServesOpen(s, a.value.we, s');
          ServingNears(s, s', i, cap);
        } else {
          OthersSetNothingBack(s, a.value, s', i);
          if s'.outq.queue != s.outq.queue && Queues(s.outq.queue, i) {
            var c :| s'.outq.queue == s.outq.queue + [c];
            AppendKeepsPosition(s.outq.queue, c, i);
          }
        }
      }
    }
  }

  // ----- the theorem -----

  // While the connection is running, the wire responds and no ping or pong comes
  // any more, every send that is pending is answered Ok, or the connection
  // closes.
  lemma PendingSendIsWritten(h: History, w: Schedule, n: nat, i: nat) returns (m: nat)
    requires Fair(h, w) && WireResponds(h, w) && i in Pending(h(n))
    requires forall j: nat :: n <= j ==> !Pinged(w(j))
    ensures n <= m && SendSettled(h(m), i)
  {
    hide Init, Next, Sound, Ready, Performs, Weakly, AbortsHonoured, Follows, OnTheWire, WillMove, SendSettled;
    hide Position;
    var cap := WriteRank(h(n), i, 0) + 1;
    EndlessIsSound(h, w, n);
    PendingIsRanked(h(n), i);
    var rank := (s: State) => WriteRank(s, i, cap);
    forall j: nat | n <= j ensures Lowers(h, w, TheWriter, rank, cap, j) {
      EndlessStep(h, w, j);
      WritingDescends(h(j), w(j), h(j + 1), i, cap);
    }
    m := Progress(h, w, TheWriter, rank, cap, n);
    OnlySettledIsZero(h(m), i, cap);
  }

  lemma PendingIsRanked(s: State, i: nat)
    requires i in Pending(s)
    ensures forall cap :: WriteRank(s, i, cap) == WriteRank(s, i, 0)
    ensures SendSettled(s, i) || InHand(s.writer, i) || Queues(s.outq.queue, i)
  {
    hide Position, SendSettled;
    if i in Unanswered(s.writer) {
      assert InHand(s.writer, i);
    } else {
      var k :| 0 <= k < |Ids(s.outq.queue)| && Ids(s.outq.queue)[k] == i;
      assert s.outq.queue[k].id == i;
    }
  }

  lemma OnlySettledIsZero(s: State, i: nat, cap: nat)
    requires WriteRank(s, i, cap) == 0 && cap > 0
    ensures SendSettled(s, i)
  {
    hide SendSettled;
  }
}
