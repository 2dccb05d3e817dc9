// A peer close is finished by the handshake, not by a timer (src/driver.rs,
// finish_peer_close, run_writer and close_writer): while the wire responds, the
// writer hears of the peer's close, flushes the reply and publishes the outcome.
module Handshake {
  import opened Errors
  import opened Machine
  import opened Effects
  import opened Assertions
  import opened Runs
  import opened Fairness
  import opened Draining
  import opened Liveness
  import Counting
  import Timers
  import Outflow
  import SendOrder
  import Inflow
  import Settling

  // ----- the reader signals -----

  ghost function UnsignalledRank(s: State): nat {
    if IsClosed(s.core) || PastLocal(s.core) then 0 else if s.reader.RSignalPeer? then 1 else FAR
  }

  // A pending peer outcome has been signalled, or the reader is about to.
  lemma PeerCloseIsSignalled(s: State)
    requires Sound(s) && s.core.state.value.PeerClosed?
    ensures UnsignalledRank(s) < FAR
  {
    hide CoreOk, WriterOk, DogsOk, CallersOk, RepliesOk, InboundOk, OutboundOk, Counting.Counted, Counting.OneWatchdog;
    hide Timers.Timed, Outflow.Conserved, SendOrder.Ordered, SendOrder.WireTimed, Inflow.Delivering, Settling.Owed;
    hide Settling.Settled;
    ReaderSignals(s.core, s.reader, s.readerSeen);
  }

  lemma ReaderSignals(c: Core, r: Reader, seen: nat)
    requires ReaderOk(c, r, seen) && c.state.value.PeerClosed?
    ensures r.RSignalPeer? || PastLocal(c)
  {
  }

  lemma SignallingFalls(s: State, a: Option<Action>, s': State)
    requires Sound(s) && StepOrStay(s, a, s')
    ensures Falls(FAR, UnsignalledRank(s), Ready(s, TheReader), UnsignalledRank(s'), Performs(a, TheReader))
  {
    hide Sound, Next;
    OnlyOwnSteps(s, a, s');
    if a.Some? {
      StepIsSound(s, a.value, s');
      if a.value.ReaderActs? && s.reader.RSignalPeer? {
        ReaderActuallySteps(s, a.value.re, s');
      }
    }
  }

  // ----- the writer finishes -----

  ghost function FinishRank(s: State): nat {
    if IsClosed(s.core) then 0
    else if !PastLocal(s.core) then FAR
    else FinishDistance(s.writer)
  }

  function FinishDistance(w: Writer): nat {
    match w
    case WPollQueues => 21
    case WWrite(_) => 20
    case WReplyOk(_) => 19
    case WReleaseOk(_) => 18
    case WFlush => 18
    case WPoll => 17
    case WReadSignal => 16
    case WSendClose => 15
    case WHandshakePark => 13
    case WHandshake => 12
    case WHandshakeEnd => 11
    case WCloseFlush => 10
    case WReadPeer => 9
    case WPublishPeer(_) => 8
    case WFail(_, _) => 8
    case _ => FAR
  }

  lemma WriterGoesOn(c: Core, w: Writer, seen: nat)
    requires WriterOk(c, w, seen) && !IsClosed(c) && PastLocal(c)
    ensures FinishDistance(w) < FAR
    ensures WriterReady(c, w, seen) || OnTheWire(w)
  {
  }

  // With the peer's close signalled, each step brings the writer nearer to
  // publishing the outcome.
  lemma WriterNears(c: Core, w: Writer, seen: nat, w': Writer)
    requires CoreOk(c) && WriterOk(c, w, seen) && WriterEdge(c, w, w') && !IsClosed(c) && PastLocal(c)
    requires w.WPoll? && w'.WPollQueues? ==> c.signal.version <= seen
    requires w.WPollQueues? ==> !w'.WShut?
    ensures IsClosed(WriterEffect(c, w)) || FinishDistance(w') < FinishDistance(w)
  {
    NothingAborted(c);
    hide CoreOk, Justified;
    match w {
      case WPollQueues => case WWrite(_) => case WReplyOk(_) => case WReleaseOk(_) => case WFlush => case WPoll =>
      case WReadSignal => case WSendClose => case WHandshakePark => case WHandshake => case WHandshakeEnd =>
      case WCloseFlush => case WReadPeer => case WPublishPeer(_) => case WFail(_, _) => case _ =>
    }
  }

  lemma NothingAborted(c: Core)
    requires CoreOk(c) && !IsClosed(c) && PastLocal(c)
    ensures !c.writerAbort && c.signal.value.PeerClose? && c.state.value.PeerClosed? && c.signal.version > 0
  {
  }

  lemma SoundWriter(s: State)
    requires Sound(s)
    ensures CoreOk(s.core) && WriterOk(s.core, s.writer, s.writerSeen) && (s.outq.abandoned ==> IsClosed(s.core))
  {
    hide CoreOk, ReaderOk, WriterOk, DogsOk, CallersOk, RepliesOk, InboundOk, Counting.Counted, Counting.OneWatchdog;
    hide Timers.Timed, Outflow.Conserved, SendOrder.Ordered, SendOrder.WireTimed, Inflow.Delivering, Settling.Owed;
    hide Settling.Settled;
  }

  lemma FinishingFalls(s: State, a: Option<Action>, s': State)
    requires Sound(s) && StepOrStay(s, a, s')
    ensures Falls(FAR, FinishRank(s), Ready(s, TheWriter) || OnTheWire(s.writer),
                  FinishRank(s'), Performs(a, TheWriter))
  {
    hide Sound, CoreOk, WriterOk, PastLocal, Next, Moves, FinishDistance, WriterReady, OnTheWire, WriterEdge;
    hide WriterEffect;
    SoundWriter(s);
    if !IsClosed(s.core) && PastLocal(s.core) {
      WriterGoesOn(s.core, s.writer, s.writerSeen);
      OnlyOwnSteps(s, a, s');
      if a.Some? {
        StepIsSound(s, a.value, s');
        SignalStaysPast(s.core, s'.core);
        if a.value.WriterActs? {
          WriterActuallySteps(s, a.value.we, s');
          WriterNears(s.core, s.writer, s.writerSeen, s'.writer);
        }
      }
    }
  }

  lemma SignalStaysPast(c: Core, d: Core)
    requires Moves(c, d) && PastLocal(c)
    ensures PastLocal(d)
  {
  }

  lemma WriterActuallySteps(s: State, ev: WriterEvent, s': State)
    requires Next(s, WriterActs(ev), s')
    ensures WriterEdge(s.core, s.writer, s'.writer) && s'.core == WriterEffect(s.core, s.writer)
    ensures s.writer.WPoll? && s'.writer.WPollQueues? ==> s.core.signal.version <= s.writerSeen
    ensures s.writer.WPollQueues? && s'.writer.WShut? ==> s.outq.abandoned
  {
    hide WriterStep, WriterEdge, WriterEffect, Answered;
    WriterSummarized(s, ev, s');
  }

  lemma SignalledIsNear(s: State)
    requires Sound(s) && UnsignalledRank(s) == 0
    ensures FinishRank(s) < FAR
  {
    SoundWriter(s);
    hide Sound, FinishDistance, PastLocal, WriterOk;
    if !IsClosed(s.core) {
      WriterGoesOn(s.core, s.writer, s.writerSeen);
    }
  }

  // Once a peer close is known, and while the wire responds, the connection is
  // Closed without any help of the clock.
  lemma PeerCloseCompletes(h: History, w: Schedule, n: nat) returns (m: nat)
    requires Fair(h, w) && WireResponds(h, w) && h(n).core.state.value.PeerClosed?
    ensures n <= m && IsClosed(h(m).core)
  {
    hide Init, Next, Sound, Ready, Performs, Weakly, AbortsHonoured, Follows, OnTheWire, FinishDistance, WillMove;
    EndlessIsSound(h, w, n);
    PeerCloseIsSignalled(h(n));
    forall j: nat | n <= j ensures Lowers(h, w, TheReader, UnsignalledRank, FAR, j) {
      EndlessStep(h, w, j);
      SignallingFalls(h(j), w(j), h(j + 1));
    }
    var k := Progress(h, w, TheReader, UnsignalledRank, FAR, n);
    EndlessIsSound(h, w, k);
    SignalledIsNear(h(k));
    forall j: nat | k <= j ensures Lowers(h, w, TheWriter, FinishRank, FAR, j) {
      EndlessStep(h, w, j);
      FinishingFalls(h(j), w(j), h(j + 1));
    }
    m := Progress(h, w, TheWriter, FinishRank, FAR, k);
    OnlyClosedIsFinished(h(m));
  }

  lemma OnlyClosedIsFinished(s: State)
    requires FinishRank(s) == 0
    ensures IsClosed(s.core)
  {
  }
}
