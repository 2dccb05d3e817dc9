// Pings and pongs (src/driver.rs, run_reader and next_writer_event): each is
// followed by a flush, and nothing else is.
module Flushing {
  import opened Cells
  import opened Machine
  import opened Effects
  import opened Endings

  // Pings and pongs read, and flush requests taken.
  function Pings(acts: seq<Action>): nat {
    if acts == [] then 0
    else Pings(acts[..|acts| - 1]) + if acts[|acts| - 1] == ReaderActs(RWire(PingOrPong)) then 1 else 0
  }

  function Takes(acts: seq<Action>): nat {
    if acts == [] then 0
    else Takes(acts[..|acts| - 1]) + if acts[|acts| - 1] == WriterActs(WTakeControl) then 1 else 0
  }

  function Requesting(r: Reader): nat { if r.RFlushRequest? then 1 else 0 }

  // The writer takes a request and goes to flush.
  ghost predicate TakesFlush(a: Action, s': State) { a == WriterActs(WTakeControl) && s'.writer.WFlush? }

  // ----- one step -----

  lemma ReaderRequests(s: State, ev: ReaderEvent, s': State)
    requires Next(s, ReaderActs(ev), s')
    ensures ev == RWire(PingOrPong) <==> s'.reader.RFlushRequest?
    ensures s.reader.RFlushRequest? ==> s'.control.pending > 0
    ensures s'.control.pending == s.control.pending
            || (s.reader.RFlushRequest? && s'.control.pending == s.control.pending + 1)
  {
    if ReaderReads(s, ev, s') {
      match s.reader { case RSelect => case RTop => case _ => }
    } else if QueueInbound(s, ev, s') {
      match s.reader { case RGate(_) => case RAcquire(_) => case _ => }
    } else if ReaderJudges(s, ev, s') {
      match s.reader { case RLoadClosing(_) => case RStoreClosing(_, _) => case _ => }
    } else if FinishPeerClose(s, ev, s') {
      match s.reader { case RPublishPeer(_) => case RSignalPeer(_) => case _ => }
    } else if ReaderWaits(s, ev, s') {
      match s.reader { case RWaitCheck(_, _, _) => case RWaitPark(_, _, _) => case RLateTerminal(_) => case _ => }
    } else if FinishReaderFailure(s, ev, s') {
      match s.reader { case RPublishFailure(_) => case RSignalFailure => case _ => }
    } else if ReaderDrops(s, ev, s') {
      match s.reader { case RDropControl => case RDropInbound => case _ => }
    }
  }

  lemma WriterTakes(s: State, ev: WriterEvent, s': State)
    requires Next(s, WriterActs(ev), s')
    ensures s'.reader == s.reader
    ensures if ev.WTakeControl? then s'.control.pending == s.control.pending - 1 && s'.writer.WFlush?
            else s'.control == s.control && !s'.writer.WFlush?
  {
    hide PutState, PutSignal, PutCount, Less, PublishWriterFailure, PublishTerminal, SignalAbort, FailureValue;
    if WriterServes(s, ev, s') {
      match s.writer {
        case WPoll => case WPollQueues => case WFlush => case WWrite(_) => case WReplyOk(_) => case _ =>
      }
    } else if WriterHeeds(s, ev, s') {
      match s.writer { case WReadSignal => case WReadPeer => case _ => }
    } else if CloseWriter(s, ev, s') {
      match s.writer { case WSendClose => case WHandshake => case WHandshakePark => case WHandshakeEnd => case _ => }
    } else if WriterLeaves(s, ev, s') {
      match s.writer {
        case WFail(_, _) => case WFailSignal(_, _) => case WReplyErr(_, _) => case WDropCommand(_) =>
        case WRelease(_) =>
        case WShut => case WDrain => case WDropTransport => case _ =>
      }
    }
  }

  lemma OthersRequestNothing(s: State, a: Action, s': State)
    requires Next(s, a, s') && !a.ReaderActs? && !a.WriterActs?
    ensures s'.control == s.control && s'.reader == s.reader
  {
    hide CloseStep, BeginCloseStep, AborterStep, AdmitStep, SendStep, ClaimStep, ReceiveStep, Quiet;
    hide DogStep, DogEdge, ControlEdge, Controls, DogEffect, CallerEffect;
    match a {
      case DogActs(k, ev) => DogSummarized(s, k, ev, s');
      case CallerActs(i, ev) => CallerSummarized(s, i, ev, s');
      case _ =>
    }
  }

  // ----- every ping is followed by a flush -----

  ghost predicate FlushedSince(states: seq<State>, acts: seq<Action>, m: nat, k: nat)
    requires |states| == |acts| + 1 && k <= |acts|
  {
    exists j :: m < j < k && TakesFlush(acts[j], states[j + 1])
  }

  // After a ping or pong the reader is about to request a flush, or a request
  // is waiting for the writer, or the writer has gone to flush since.
  lemma {:induction false} PingIsFlushed(states: seq<State>, acts: seq<Action>, m: nat, k: nat)
    requires Run(states, acts) && m < k < |states| && ReadsAt(acts[m], PingOrPong)
    ensures states[k].reader.RFlushRequest? || states[k].control.pending > 0 || FlushedSince(states, acts, m, k)
    decreases k
  {
    hide Init, Next;
    if m + 1 == k {
      ReaderRequests(states[m], acts[m].re, states[k]);
    } else {
      PingIsFlushed(states, acts, m, k - 1);
      var a := acts[k - 1];
      if a.ReaderActs? {
        ReaderRequests(states[k - 1], a.re, states[k]);
      } else if a.WriterActs? {
        WriterTakes(states[k - 1], a.we, states[k]);
        assert a.we.WTakeControl? ==> TakesFlush(acts[k - 1], states[k - 1 + 1]);
      } else {
        OthersRequestNothing(states[k - 1], a, states[k]);
      }
    }
  }

  // Each flush answers a ping or pong of its own.
  lemma {:induction false} FlushesHavePings(states: seq<State>, acts: seq<Action>, k: nat)
    requires Run(states, acts) && k < |states|
    ensures states[k].control.pending + Takes(acts[..k]) + Requesting(states[k].reader) <= Pings(acts[..k])
  {
    hide Next;
    if k == 0 {
      assert acts[..0] == [];
    } else {
      hide Init;
      FlushesHavePings(states, acts, k - 1);
      assert acts[..k][..k - 1] == acts[..k - 1];
      var a := acts[k - 1];
      if a.ReaderActs? {
        ReaderRequests(states[k - 1], a.re, states[k]);
      } else if a.WriterActs? {
        WriterTakes(states[k - 1], a.we, states[k]);
      } else {
        OthersRequestNothing(states[k - 1], a, states[k]);
      }
    }
  }
}
