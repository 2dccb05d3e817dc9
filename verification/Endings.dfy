// How the reading ends (src/driver.rs, run_reader): the close frame, read error
// or end of stream that the reader sees decides what is published, and every
// final value of a connection has one of four causes.
module Endings {
  import opened Errors
  import opened Cells
  import opened Machine
  import opened Effects
  import opened Assertions
  import opened Runs
  import opened Outcomes
  import opened Inflow
  import Config
  import Counting
  import Timers
  import Outflow
  import SendOrder
  import Settling
  import Fairness

  // ----- what an item means -----

  predicate EndsReading(item: WireItem) { item.PeerCloses? || item.ReadError? || item.EndOfStream? }

  // The value with which an item ends the connection; local: a local close had
  // begun when the reader looked.
  function Conclusion(item: WireItem, local: bool): DriverError
    requires EndsReading(item)
  {
    match item
    case PeerCloses(frame) => ClassifyClose(frame, local)
    case ReadError(connectionClosed, text) =>
      if connectionClosed && local then ClosedOk(LOCAL_NORMAL) else Transport("WebSocket receive failed: " + text)
    case EndOfStream => if local then ClosedOk(LOCAL_NORMAL) else ENDED
  }

  // The reader has the item and has not looked yet.
  ghost predicate Undecided(r: Reader, item: WireItem) {
    match item
    case PeerCloses(frame) => r == RLoadClosing(frame)
    case ReadError(connectionClosed, text) =>
      r == RJudge(connectionClosed, Transport("WebSocket receive failed: " + text))
    case EndOfStream => r == RJudge(true, ENDED)
    case _ => false
  }

  // It is about to publish o.
  ghost predicate Publishes(r: Reader, o: DriverError) { r == RPublishPeer(o) || r == RPublishFailure(o) }

  ghost predicate Deciding(r: Reader, o: DriverError) {
    Publishes(r, o) || (r.RStoreClosing? && o == ClassifyClose(r.frame, r.local))
  }

  ghost predicate ReadsAt(a: Action, item: WireItem) { a == ReaderActs(RWire(item)) }

  // ----- one step of the reader -----

  ghost predicate EndsCount(s: State, ev: ReaderEvent, s': State) {
    && (ev.RWire? && EndsReading(ev.item) ==> Undecided(s'.reader, ev.item))
    && (s.reader.REnqueue? && ev.RGo? && s.inq.gone ==> s'.reader == RJudge(true, ENDED))
    && (ev.RWire? ==> s.reader.RSelect?)
    && (s'.reader.RLoadClosing? ==> ev == RWire(WireItem.PeerCloses(s'.reader.frame)))
    && (s'.reader.RStoreClosing? ==> s.reader.RLoadClosing?)
    && (s'.reader.RJudge? ==> (ev.RWire? && EndsReading(ev.item) && Undecided(s'.reader, ev.item)) || s.inq.gone)
    && (s'.reader.RPublishPeer? ==> s.reader.RStoreClosing? || s.reader.RJudge?)
    && (s'.reader.RPublishFailure? ==> s.reader.RJudge?)
  }

  lemma StepEndsReading(s: State, ev: ReaderEvent, s': State)
    requires ReaderStep(s, ev, s') && Reading(s) && Config.Limits(s.cfg)
    ensures EndsCount(s, ev, s')
  {
    if s.reader.RGate? {
      assert s.reader.m in ReaderHand(s.reader);
    }
    if ReaderReads(s, ev, s') {
      match s.reader { case RSelect => case RTop => case _ => }
    } else if QueueInbound(s, ev, s') {
      match s.reader { case RGate(_) => case RAcquire(_) => case _ => }
    } else if ReaderJudges(s, ev, s') {
      match s.reader { case RLoadClosing(_) => case RStoreClosing(_, _) => case _ => }
    } else if FinishPeerClose(s, ev, s') {
      match s.reader { case RPublishPeer(_) => case RSignalPeer(_) => case _ => }
    } else if ReaderWaits(s, ev, s') {
      match s.reader { case RWaitCheck(_, _, _) => case RWaitPark(_, _, _) => case RLateTerminal(_) => case _ => }
    } else if FinishReaderFailure(s, ev, s') {
      match s.reader { case RPublishFailure(_) => case RSignalFailure => case _ => }
    } else if ReaderDrops(s, ev, s') {
      match s.reader { case RDropControl => case RDropInbound => case _ => }
    }
  }

  // Where the reader goes from an item.
  lemma ReaderConcludes(s: State, ev: ReaderEvent, s': State, item: WireItem)
    requires Next(s, ReaderActs(ev), s') && EndsReading(item) && Undecided(s.reader, item)
    ensures Deciding(s'.reader, Conclusion(item, s.core.closing))
  {
    hide ReaderStep, ReaderEffect;
    ReaderSummarized(s, ev, s');
  }

  lemma ReaderStores(s: State, ev: ReaderEvent, s': State, o: DriverError)
    requires Next(s, ReaderActs(ev), s') && Deciding(s.reader, o) && !Publishes(s.reader, o)
    ensures Publishes(s'.reader, o)
  {
    hide ReaderStep, ReaderEffect;
    ReaderSummarized(s, ev, s');
  }

  // What the publication does.
  lemma ReaderPublishes(s: State, ev: ReaderEvent, s': State, o: DriverError)
    requires Sound(s) && Next(s, ReaderActs(ev), s') && Publishes(s.reader, o)
    ensures o.Transport? <==> s.reader.RPublishFailure?
    ensures s'.core.state.value == if IsClosed(s.core) then s.core.state.value
                                   else if o.Transport? then Closed(o) else PeerClosed(o)
  {
    hide ReaderStep, ReaderEdge;
    hide WriterOk, DogsOk, CallersOk, RepliesOk, InboundOk, OutboundOk, Counting.Counted, Counting.OneWatchdog;
    hide Timers.Timed, Outflow.Conserved, SendOrder.Ordered, SendOrder.WireTimed, Delivering, Settling.Owed;
    hide Settling.Settled, CoreOk;
    ReaderSummarized(s, ev, s');
  }

  // ----- the last item decides -----

  // The publication of o at p stands at k: unless the state was Closed before
  // by somebody else, it is what the connection ends with, but for an abort()
  // that overrides a peer outcome still pending.
  ghost predicate Stands(states: seq<State>, acts: seq<Action>, p: nat, k: nat, o: DriverError)
    requires Run(states, acts) && p < k < |states|
  {
    var d := states[k].core.state.value;
    if IsClosed(states[p].core) then d == states[p].core.state.value
    else if o.Transport? then d == Closed(o)
    else if Abandoned(states, acts, p + 1, k) then d == Closed(ABANDONED)
    else d == PeerClosed(o) || d == Closed(o)
  }

  lemma PublicationStands(states: seq<State>, acts: seq<Action>, p: nat, k: nat, o: DriverError)
    requires Run(states, acts) && p < k < |states| && acts[p].ReaderActs? && Publishes(states[p].reader, o)
    ensures Stands(states, acts, p, k, o)
  {
    hide Init, Next, Sound, Onward, Abandoned, Publishes;
    RunIsSound(states, acts, p);
    ReaderPublishes(states[p], acts[p].re, states[p + 1], o);
    RunOnward(states, acts, p + 1, k);
    if IsClosed(states[p + 1].core) {
      FinalIsFinal(states[p + 1].core, states[k].core);
    } else {
      PeerOutcomeIsPreserved(states, acts, p + 1, k, o);
    }
  }

  // The item with which the reading ends, and whether a local close had begun
  // when the reader looked at j, decide what it publishes at p: the peer's
  // frame as classified, a normal close for an end that was expected, a
  // transport error for any other. While j or p is k it has not come to that.
  lemma {:induction false} LastItemDecides(states: seq<State>, acts: seq<Action>, m: nat, k: nat, item: WireItem)
    returns (j: nat, p: nat)
    requires Run(states, acts) && m < k < |states| && ReadsAt(acts[m], item) && EndsReading(item)
    ensures m < j <= p <= k && Undecided(states[j].reader, item)
    ensures states[j].core.closing <==> LocalBegan(states, acts, j)
    ensures j == p ==> p == k
    ensures j < p ==> acts[j].ReaderActs?
    ensures var o := Conclusion(item, states[j].core.closing);
            && (j < p == k ==> Deciding(states[k].reader, o))
            && (p < k ==> acts[p].ReaderActs? && Publishes(states[p].reader, o) && Stands(states, acts, p, k, o))
    decreases k
  {
    hide Init, Next, Sound, Undecided, Deciding, Publishes, Stands, Conclusion, LocalBegan, ReadsAt;
    RunIsSound(states, acts, m);
    if m + 1 == k {
      StepReads(states[m], acts[m], states[k], item);
      j, p := k, k;
    } else {
      j, p := LastItemDecides(states, acts, m, k - 1, item);
      j, p := ItemGoesOn(states, acts, j, p, k - 1, item);
    }
    BegunBefore(states, acts, j, item);
    if p < k {
      PublicationStands(states, acts, p, k, Conclusion(item, states[j].core.closing));
    }
  }

  lemma StepReads(s: State, a: Action, s': State, item: WireItem)
    requires Sound(s) && Next(s, a, s') && ReadsAt(a, item) && EndsReading(item)
    ensures Undecided(s'.reader, item)
  {
    hide ReaderStep, Sound, Reading, Config.Limits;
    SoundReads(s);
    StepEndsReading(s, a.re, s');
  }

  lemma ItemGoesOn(states: seq<State>, acts: seq<Action>, j: nat, p: nat, k: nat, item: WireItem)
    returns (j': nat, p': nat)
    requires Run(states, acts) && j <= p <= k < |acts| && EndsReading(item) && Undecided(states[j].reader, item)
    requires j == p ==> p == k
    requires j < p ==> acts[j].ReaderActs?
    requires var o := Conclusion(item, states[j].core.closing);
             && (j < p == k ==> Deciding(states[k].reader, o))
             && (p < k ==> acts[p].ReaderActs? && Publishes(states[p].reader, o))
    ensures j <= j' <= p' <= k + 1 && Undecided(states[j'].reader, item)
    ensures j' == p' ==> p' == k + 1
    ensures j' < p' ==> acts[j'].ReaderActs?
    ensures var o := Conclusion(item, states[j'].core.closing);
            && (j' < p' == k + 1 ==> Deciding(states[k + 1].reader, o))
            && (p' < k + 1 ==> acts[p'].ReaderActs? && Publishes(states[p'].reader, o))
  {
    hide Init, Next, Undecided, Deciding, Publishes, Conclusion;
    j', p' := j, p;
    var o := Conclusion(item, states[j].core.closing);
    if p == k {
      Fairness.OnlyOwnSteps(states[k], Some(acts[k]), states[k + 1]);
      if !acts[k].ReaderActs? {
        p' := k + 1;
        j' := if j == k then k + 1 else j;
      } else if j == k {
        p' := k + 1;
        ReaderConcludes(states[k], acts[k].re, states[k + 1], item);
      } else if !Publishes(states[k].reader, o) {
        p' := k + 1;
        ReaderStores(states[k], acts[k].re, states[k + 1], o);
        PublishersDecide(states[k + 1].reader, o);
      }
    }
  }

  lemma PublishersDecide(r: Reader, o: DriverError)
    requires Publishes(r, o)
    ensures Deciding(r, o)
  {
  }

  // `closing` was set by a close() or abort() and by nobody else.
  lemma BegunBefore(states: seq<State>, acts: seq<Action>, j: nat, item: WireItem)
    requires Run(states, acts) && j < |states| && Undecided(states[j].reader, item)
    ensures states[j].core.closing <==> LocalBegan(states, acts, j)
  {
    hide Init, Next, Sound, Begins, FrameRead, EndSeen, JudgedOrderly, Onward, Undecided;
    RunIsSound(states, acts, j);
    RunIsTraced(states, acts, j);
    ClosingIsBegun(states[j], item);
    if LocalBegan(states, acts, j) {
      var m :| 0 <= m < j && Begins(states[m], acts[m]);
      BeginningBegins(states[m], acts[m], states[m + 1]);
      RunOnward(states, acts, m + 1, j);
      assert states[j].core.begun by { OnwardStaysBegun(states[m + 1].core, states[j].core); }
    }
  }

  lemma OnwardStaysBegun(c: Core, d: Core)
    requires Onward(c, d) && c.begun
    ensures d.begun
  {
  }

  lemma ClosingIsBegun(s: State, item: WireItem)
    requires Sound(s) && Undecided(s.reader, item)
    ensures s.core.closing <==> s.core.begun
  {
    hide WriterOk, DogsOk, CallersOk, RepliesOk, InboundOk, OutboundOk, Counting.Counted, Counting.OneWatchdog;
    hide Timers.Timed, Outflow.Conserved, SendOrder.Ordered, SendOrder.WireTimed, Delivering, Settling.Owed;
    hide Settling.Settled;
  }

  lemma BeginningBegins(s: State, a: Action, s': State)
    requires Next(s, a, s') && Begins(s, a)
    ensures s'.core.begun
  {
    hide CloseStep, BeginCloseStep, AborterStep, AdmitStep, SendStep, ClaimStep, ReceiveStep, ControlEdge, Controls;
    CallerSummarized(s, a.i, a.ce, s');
  }

  // ----- nothing is read afterwards -----

  // The reader gets an item that ends the reading, or finds the receiver of its
  // messages gone.
  ghost predicate StopsReading(s: State, a: Action) {
    || (a.ReaderActs? && a.re.RWire? && EndsReading(a.re.item))
    || (a == ReaderActs(RGo) && s.reader.REnqueue? && s.inq.gone)
  }

  lemma StoppedStaysStopped(s: State, a: Action, s': State)
    requires Sound(s) && Next(s, a, s')
    ensures !ReaderLooping(s.reader) || StopsReading(s, a) ==> !ReaderLooping(s'.reader)
    ensures a.ReaderActs? && a.re.RWire? ==> ReaderLooping(s.reader)
  {
    hide ReaderStep, Sound, Reading, Config.Limits, ReaderEffect;
    if a.ReaderActs? {
      SoundReads(s);
      StepEndsReading(s, a.re, s');
      ReaderSummarized(s, a.re, s');
    } else {
      hide Next;
      Fairness.OnlyOwnSteps(s, Some(a), s');
    }
  }

  lemma {:induction false} StoppedForGood(states: seq<State>, acts: seq<Action>, j: nat, k: nat)
    requires Run(states, acts) && j <= k < |states| && !ReaderLooping(states[j].reader)
    ensures !ReaderLooping(states[k].reader)
    decreases k
  {
    hide Init, Next, Sound, ReaderLooping;
    if j == k {
    } else {
      StoppedForGood(states, acts, j, k - 1);
      RunIsSound(states, acts, k - 1);
      StoppedStaysStopped(states[k - 1], acts[k - 1], states[k]);
    }
  }

  // Then no item is read off the wire any more.
  lemma NothingIsReadAfterwards(states: seq<State>, acts: seq<Action>, m: nat, k: nat)
    requires Run(states, acts) && m < k < |acts| && StopsReading(states[m], acts[m])
    ensures !(acts[k].ReaderActs? && acts[k].re.RWire?)
  {
    hide Init, Next, Sound, ReaderLooping, StopsReading;
    RunIsSound(states, acts, m);
    StoppedStaysStopped(states[m], acts[m], states[m + 1]);
    StoppedForGood(states, acts, m + 1, k);
    RunIsSound(states, acts, k);
    StoppedStaysStopped(states[k], acts[k], states[k + 1]);
  }

  // ----- what calls report then -----

  // After a close() has returned the reader has published: the value reported
  // is the conclusion from the last item, unless the state was Closed before,
  // or an abort() overrode it.
  lemma LastItemIsReported(states: seq<State>, acts: seq<Action>, m: nat, k: nat, item: WireItem, i: nat)
    returns (j: nat, p: nat)
    requires Run(states, acts) && m < k < |states| && ReadsAt(acts[m], item) && EndsReading(item)
    requires i < |states[k].callers| && states[k].callers[i].CloseDone?
    ensures m < j < p < k
    ensures states[j].core.closing <==> LocalBegan(states, acts, j)
    ensures var e, o := states[k].callers[i].terminal, Conclusion(item, states[j].core.closing);
            if IsClosed(states[p].core) then Closed(e) == states[p].core.state.value
            else e == if !o.Transport? && Abandoned(states, acts, p + 1, k) then ABANDONED else o
  {
    hide Init, Next, Sound, LocalBegan, Abandoned, Conclusion, Stands, Undecided, Deciding, ReadsAt;
    j, p := LastItemDecides(states, acts, m, k, item);
    RunIsSound(states, acts, k);
    ReportsAreFinal(states[k], i);
    CloseLeavesNothingBehind(states, acts, k, i, k);
    EndedIsDecided(states[k].reader, item, Conclusion(item, states[j].core.closing));
    assert Stands(states, acts, p, k, Conclusion(item, states[j].core.closing));
    StandingIsReported(states, acts, p, k, Conclusion(item, states[j].core.closing), states[k].callers[i].terminal);
  }

  lemma StandingIsReported(states: seq<State>, acts: seq<Action>, p: nat, k: nat, o: DriverError, e: DriverError)
    requires Run(states, acts) && p < k < |states| && Stands(states, acts, p, k, o)
    requires states[k].core.state.value == Closed(e)
    ensures if IsClosed(states[p].core) then Closed(e) == states[p].core.state.value
            else e == if !o.Transport? && Abandoned(states, acts, p + 1, k) then ABANDONED else o
  {
    hide Init, Next, Abandoned;
  }

  lemma EndedIsDecided(r: Reader, item: WireItem, o: DriverError)
    requires r.RDone?
    ensures !Undecided(r, item) && !Deciding(r, o)
  {
  }
}
