// Every final value of a connection has a cause that can be pointed to in the
// run (src/driver.rs): an abort(), a close that took too long, an item read off
// the wire, or an error in writing to it. The two timers never fire early.
module Causes {
  import opened Errors
  import opened Cells
  import opened Machine
  import opened Effects
  import opened Assertions
  import opened Runs
  import opened Outcomes
  import opened Writes
  import opened Endings
  import Inflow
  import Counting
  import Timers
  import Outflow
  import SendOrder
  import Settling
  import Fairness

  // ----- the watchdog's timer is never early -----

  // close_timeout has passed since `closing` was set.
  ghost predicate Overdue(c: Core, timeout: nat) { c.since.Some? && c.since.value + timeout <= c.now }

  ghost predicate DogWaits(c: Core, timeout: nat, d: Dog) {
    && c.since.Some? && c.since.value <= c.now
    && (d.DCheck? || d.DPark? ==> c.since.value + timeout <= d.deadline)
    && (d.DFire? ==> Overdue(c, timeout))
  }

  ghost predicate Patient(s: State) {
    forall k :: 0 <= k < |s.dogs| ==> DogWaits(s.core, s.cfg.closeTimeout, s.dogs[k])
  }

  lemma DogWaitsOn(timeout: nat, c: Core, d: Dog, c': Core, d': Dog)
    requires DogWaits(c, timeout, d) && (c.since.Some? ==> c'.since == c.since) && c'.now >= c.now
    requires d' == d || DogEdge(timeout, c, d, d')
    ensures DogWaits(c', timeout, d')
  {
  }

  lemma StepIsPatient(s: State, a: Action, s': State)
    requires Sound(s) && Next(s, a, s') && Patient(s)
    ensures Patient(s')
  {
    hide Next, Sound, DogWaits;
    StepIsSound(s, a, s');
    SinceStays(s, a, s');
    forall k | 0 <= k < |s'.dogs| ensures DogWaits(s'.core, s'.cfg.closeTimeout, s'.dogs[k]) {
      if k < |s.dogs| {
        DogWaitsOn(s.cfg.closeTimeout, s.core, s.dogs[k], s'.core, s'.dogs[k]);
      } else {
        assert s'.dogs[k].DStart?;
        StartedWaits(s'.core, s'.cfg.closeTimeout, s'.dogs[k]);
      }
    }
  }

  lemma StartedWaits(c: Core, timeout: nat, d: Dog)
    requires d.DStart? && c.since.Some? && c.since.value <= c.now
    ensures DogWaits(c, timeout, d)
  {
  }

  lemma SinceStays(s: State, a: Action, s': State)
    requires Sound(s) && Next(s, a, s') && Moves(s.core, s'.core)
    ensures s'.cfg == s.cfg && s.core.now <= s'.core.now
    ensures s.core.since.Some? ==> s'.core.since == s.core.since
    ensures |s.dogs| <= |s'.dogs|
    ensures forall k :: 0 <= k < |s.dogs| ==>
              s'.dogs[k] == s.dogs[k] || DogEdge(s.cfg.closeTimeout, s.core, s.dogs[k], s'.dogs[k])
    ensures forall k :: |s.dogs| <= k < |s'.dogs| ==>
              s'.dogs[k].DStart? && s'.core.since.Some? && s'.core.since.value <= s'.core.now
  {
    hide CloseStep, BeginCloseStep, AborterStep, AdmitStep, SendStep, ClaimStep, ReceiveStep, Quiet;
    hide ReaderStep, WriterStep, DogStep, ReaderEdge, WriterEdge, DogEdge, ControlEdge, Controls, Answered;
    hide ReaderEffect, WriterEffect, DogEffect, CallerEffect, Sound;
    match a {
      case ReaderActs(ev) => ReaderSummarized(s, ev, s');
      case WriterActs(ev) => WriterSummarized(s, ev, s');
      case DogActs(k, ev) => DogSummarized(s, k, ev, s');
      case CallerActs(i, ev) =>
        CallerSummarized(s, i, ev, s');
        if s.callers[i].CSpawn? {
          SpawnersHaveBegun(s, i);
          SpawningKeepsCore(s.core, s.callers[i]);
        }
      case _ =>
    }
  }

  lemma SpawningKeepsCore(c: Core, p: Caller)
    requires p.CSpawn?
    ensures CallerEffect(c, p) == c
  {
  }

  lemma SpawnersHaveBegun(s: State, i: nat)
    requires Sound(s) && i < |s.callers| && s.callers[i].CSpawn?
    ensures s.core.since.Some? && s.core.since.value <= s.core.now
  {
    hide ReaderOk, WriterOk, DogsOk, RepliesOk, InboundOk, OutboundOk, Counting.Counted, Counting.OneWatchdog;
    hide Timers.Timed, Outflow.Conserved, SendOrder.Ordered, SendOrder.WireTimed, Inflow.Delivering, Settling.Owed;
    hide Settling.Settled;
    assert CallerOk(s.core, s.callers[i]);
  }

  lemma {:induction false} RunIsPatient(states: seq<State>, acts: seq<Action>, k: nat)
    requires Run(states, acts) && k < |states|
    ensures Patient(states[k])
  {
    hide Next, Sound, DogWaits;
    if k == 0 {
    } else {
      hide Init;
      RunIsPatient(states, acts, k - 1);
      RunIsSound(states, acts, k - 1);
      StepIsPatient(states[k - 1], acts[k - 1], states[k]);
    }
  }

  // ----- the causes -----

  // abort() publishes.
  ghost predicate AbandonedBy(states: seq<State>, acts: seq<Action>, k: nat)
    requires |states| == |acts| + 1 && k <= |acts|
  {
    exists m :: 0 <= m < k && AbandonsAt(states[m], acts[m])
  }

  // The watchdog publishes, close_timeout after `closing` was set or later.
  ghost predicate FiresAt(s: State, a: Action) {
    a.DogActs? && a.k < |s.dogs| && s.dogs[a.k].DFire? && Overdue(s.core, s.cfg.closeTimeout)
  }

  ghost predicate TimedOutBy(states: seq<State>, acts: seq<Action>, k: nat)
    requires |states| == |acts| + 1 && k <= |acts|
  {
    exists m :: 0 <= m < k && FiresAt(states[m], acts[m])
  }

  ghost predicate ReadBy(acts: seq<Action>, k: nat, item: WireItem)
    requires k <= |acts|
  {
    exists m :: 0 <= m < k && ReadsAt(acts[m], item)
  }

  ghost predicate ConcludedBy(states: seq<State>, acts: seq<Action>, k: nat, e: DriverError)
    requires |states| == |acts| + 1 && k <= |acts|
  {
    exists item, local ::
      EndsReading(item) && ReadBy(acts, k, item) && e == Conclusion(item, local)
      && (local ==> LocalBegan(states, acts, k))
  }

  ghost predicate WriteFailedBy(states: seq<State>, acts: seq<Action>, k: nat, e: DriverError)
    requires |states| == |acts| + 1 && k <= |acts|
  {
    exists held :: FailedBy(states, acts, k, e, held)
  }

  ghost predicate Caused(states: seq<State>, acts: seq<Action>, k: nat, e: DriverError)
    requires |states| == |acts| + 1 && k <= |acts|
  {
    || (e == ABANDONED && AbandonedBy(states, acts, k))
    || (e == TIMED_OUT && TimedOutBy(states, acts, k))
    || ConcludedBy(states, acts, k, e)
    || WriteFailedBy(states, acts, k, e)
  }

  // What the reader is on its way to publish.
  ghost predicate ReaderCaused(states: seq<State>, acts: seq<Action>, k: nat)
    requires |states| == |acts| + 1 && k <= |acts|
  {
    var s := states[k];
    match s.reader
    case RLoadClosing(frame) => ReadBy(acts, k, WireItem.PeerCloses(frame))
    case RStoreClosing(frame, local) => ConcludedBy(states, acts, k, ClassifyClose(frame, local))
    case RJudge(_, _) => IsClosed(s.core) || exists item :: Undecided(s.reader, item) && ReadBy(acts, k, item)
    case RPublishPeer(o) => IsClosed(s.core) || ConcludedBy(states, acts, k, o)
    case RPublishFailure(o) => IsClosed(s.core) || ConcludedBy(states, acts, k, o)
    case _ => true
  }

  ghost predicate OutcomeCaused(states: seq<State>, acts: seq<Action>, k: nat)
    requires |states| == |acts| + 1 && k <= |acts|
  {
    var d := states[k].core.state.value;
    d.PeerClosed? || d.Closed? ==> Caused(states, acts, k, d.outcome)
  }

  lemma CausesLast(states: seq<State>, acts: seq<Action>, k: nat)
    requires |states| == |acts| + 1 && k < |acts|
    ensures AbandonedBy(states, acts, k) || AbandonsAt(states[k], acts[k]) ==> AbandonedBy(states, acts, k + 1)
    ensures TimedOutBy(states, acts, k) || FiresAt(states[k], acts[k]) ==> TimedOutBy(states, acts, k + 1)
    ensures forall item :: ReadBy(acts, k, item) || ReadsAt(acts[k], item) ==> ReadBy(acts, k + 1, item)
  {
    hide AbandonsAt, FiresAt, ReadsAt;
  }

  lemma ConclusionsLast(states: seq<State>, acts: seq<Action>, k: nat, e: DriverError)
    requires |states| == |acts| + 1 && k < |acts|
    ensures ConcludedBy(states, acts, k, e) ==> ConcludedBy(states, acts, k + 1, e)
    ensures WriteFailedBy(states, acts, k, e) ==> WriteFailedBy(states, acts, k + 1, e)
  {
    hide ReadBy, Conclusion, FailedBy, LocalBegan, Begins;
    CausesLast(states, acts, k);
    PastGrows(states, acts, k);
    HistoryGrows(states, acts, k);
  }

  lemma CauseLasts(states: seq<State>, acts: seq<Action>, k: nat, e: DriverError)
    requires |states| == |acts| + 1 && k < |acts|
    ensures Caused(states, acts, k, e) ==> Caused(states, acts, k + 1, e)
  {
    hide AbandonedBy, TimedOutBy, ConcludedBy, WriteFailedBy;
    CausesLast(states, acts, k);
    ConclusionsLast(states, acts, k, e);
  }

  // ----- who publishes -----

  // A step that brings the state to a new outcome is one of four.
  ghost predicate Publisher(s: State, a: Action, o: DriverError) {
    match a
    case ReaderActs(_) => Endings.Publishes(s.reader, o)
    case WriterActs(_) => s.writer.WFail? && s.writer.e == o
    case DogActs(k, _) => k < |s.dogs| && s.dogs[k].DFire? && o == TIMED_OUT
    case CallerActs(i, _) => AbandonsAt(s, a) && o == ABANDONED
    case _ => false
  }

  ghost predicate NewOutcome(d: DriverState, d': DriverState) {
    (d'.PeerClosed? || d'.Closed?) && (d.PeerClosed? || d.Closed? ==> d'.outcome != d.outcome)
  }

  lemma ReaderBringsOutcome(c: Core, r: Reader, seen: nat)
    requires ReaderOk(c, r, seen) && NewOutcome(c.state.value, ReaderEffect(c, r).state.value)
    ensures Endings.Publishes(r, ReaderEffect(c, r).state.value.outcome) && !IsClosed(c)
  {
    hide Justified;
  }

  lemma WriterBringsOutcome(c: Core, w: Writer, seen: nat)
    requires WriterOk(c, w, seen) && NewOutcome(c.state.value, WriterEffect(c, w).state.value)
    ensures w.WFail? && w.e == WriterEffect(c, w).state.value.outcome && !IsClosed(c)
  {
    hide Justified;
  }

  lemma DogBringsOutcome(c: Core, d: Dog)
    requires NewOutcome(c.state.value, DogEffect(c, d).state.value)
    ensures d.DFire? && DogEffect(c, d).state.value.outcome == TIMED_OUT && !IsClosed(c)
  {
  }

  lemma CallBringsOutcome(c: Core, p: Caller)
    requires NewOutcome(c.state.value, CallerEffect(c, p).state.value)
    ensures p.APublish? && CallerEffect(c, p).state.value.outcome == ABANDONED && !IsClosed(c)
  {
  }

  lemma StepBringsOutcome(s: State, a: Action, s': State)
    requires Sound(s) && Next(s, a, s') && NewOutcome(s.core.state.value, s'.core.state.value)
    ensures Publisher(s, a, s'.core.state.value.outcome) && !IsClosed(s.core)
  {
    hide CloseStep, BeginCloseStep, AborterStep, AdmitStep, SendStep, ClaimStep, ReceiveStep, Quiet;
    hide ReaderStep, WriterStep, DogStep, ReaderEdge, WriterEdge, DogEdge, ControlEdge, Controls, Answered;
    hide ReaderEffect, WriterEffect, DogEffect, CallerEffect;
    hide CoreOk, ReaderOk, WriterOk, DogsOk, CallersOk, RepliesOk, InboundOk, OutboundOk, Counting.Counted;
    hide Counting.OneWatchdog, Timers.Timed, Outflow.Conserved, SendOrder.Ordered, SendOrder.WireTimed;
    hide Inflow.Delivering, Settling.Owed, Settling.Settled, NewOutcome;
    NothingNew(s.core.state.value);
    match a {
      case ReaderActs(ev) =>
        ReaderSummarized(s, ev, s');
        ReaderBringsOutcome(s.core, s.reader, s.readerSeen);
      case WriterActs(ev) =>
        WriterSummarized(s, ev, s');
        WriterBringsOutcome(s.core, s.writer, s.writerSeen);
      case DogActs(k, ev) =>
        DogSummarized(s, k, ev, s');
        DogBringsOutcome(s.core, s.dogs[k]);
      case CallerActs(i, ev) =>
        CallerSummarized(s, i, ev, s');
        CallBringsOutcome(s.core, s.callers[i]);
      case _ =>
    }
  }

  lemma NothingNew(d: DriverState)
    ensures !NewOutcome(d, d)
  {
  }

  lemma OutcomeIsCaused(states: seq<State>, acts: seq<Action>, k: nat)
    requires |states| == |acts| + 1 && k < |acts| && Next(states[k], acts[k], states[k + 1])
    requires Sound(states[k]) && Patient(states[k]) && WriterTraced(states, acts, k)
    requires ReaderCaused(states, acts, k) && OutcomeCaused(states, acts, k)
    ensures OutcomeCaused(states, acts, k + 1)
  {
    hide Next, Sound, AbandonedBy, TimedOutBy, ConcludedBy, FailedBy, WrittenBy, Served, Patient, AbandonsAt;
    hide Endings.Publishes;
    var s, s' := states[k], states[k + 1];
    var d, d' := s.core.state.value, s'.core.state.value;
    if NewOutcome(d, d') {
      StepBringsOutcome(s, acts[k], s');
      CausesLast(states, acts, k);
      ConclusionsLast(states, acts, k, d'.outcome);
      match acts[k] {
        case ReaderActs(_) => PublishersAreCaused(states, acts, k, d'.outcome);
        case WriterActs(_) =>
        case DogActs(j, _) => FiringIsLate(s, acts[k]);
        case _ =>
      }
    } else if d'.PeerClosed? || d'.Closed? {
      SameOutcome(d, d');
      CauseLasts(states, acts, k, d'.outcome);
    }
  }

  lemma SameOutcome(d: DriverState, d': DriverState)
    requires !NewOutcome(d, d') && (d'.PeerClosed? || d'.Closed?)
    ensures (d.PeerClosed? || d.Closed?) && d.outcome == d'.outcome
  {
  }

  lemma PublishersAreCaused(states: seq<State>, acts: seq<Action>, k: nat, o: DriverError)
    requires |states| == |acts| + 1 && k <= |acts| && ReaderCaused(states, acts, k)
    requires Endings.Publishes(states[k].reader, o) && !IsClosed(states[k].core)
    ensures ConcludedBy(states, acts, k, o)
  {
    hide ConcludedBy, ReadBy;
  }

  lemma FiringIsLate(s: State, a: Action)
    requires Patient(s) && a.DogActs? && a.k < |s.dogs| && s.dogs[a.k].DFire?
    ensures FiresAt(s, a)
  {
    assert DogWaits(s.core, s.cfg.closeTimeout, s.dogs[a.k]);
  }

  // ----- what the reader carries -----

  lemma ReaderIsCaused(states: seq<State>, acts: seq<Action>, k: nat)
    requires |states| == |acts| + 1 && k < |acts| && Next(states[k], acts[k], states[k + 1])
    requires Sound(states[k]) && Traced(states, acts, k) && ReaderCaused(states, acts, k)
    ensures ReaderCaused(states, acts, k + 1)
  {
    hide Next, Sound, ConcludedBy, ReadBy, Undecided, Conclusion, FrameRead, EndSeen, JudgedOrderly, LocalBegan;
    var s, s' := states[k], states[k + 1];
    StepIsSound(s, acts[k], s');
    CausesLast(states, acts, k);
    if acts[k].ReaderActs? {
      ReaderMovesOn(states, acts, k);
    } else {
      Fairness.OnlyOwnSteps(s, Some(acts[k]), s');
      SomeConclusionsLast(states, acts, k);
    }
  }

  lemma SomeConclusionsLast(states: seq<State>, acts: seq<Action>, k: nat)
    requires |states| == |acts| + 1 && k < |acts|
    ensures forall e :: ConcludedBy(states, acts, k, e) ==> ConcludedBy(states, acts, k + 1, e)
  {
    hide ConcludedBy;
    forall e ensures ConcludedBy(states, acts, k, e) ==> ConcludedBy(states, acts, k + 1, e) {
      ConclusionsLast(states, acts, k, e);
    }
  }

  lemma ReaderMovesOn(states: seq<State>, acts: seq<Action>, k: nat)
    requires |states| == |acts| + 1 && k < |acts| && Next(states[k], acts[k], states[k + 1]) && acts[k].ReaderActs?
    requires Sound(states[k]) && Traced(states, acts, k) && ReaderCaused(states, acts, k)
    requires IsClosed(states[k].core) ==> IsClosed(states[k + 1].core)
    ensures ReaderCaused(states, acts, k + 1)
  {
    hide Next, Sound, ConcludedBy, ReadBy, Undecided, Conclusion, FrameRead, EndSeen, JudgedOrderly, LocalBegan;
    hide ReaderEdge, EndsCount;
    var s, s' := states[k], states[k + 1];
    ReaderTakes(s, acts[k].re, s');
    CausesLast(states, acts, k);
    match s'.reader {
      case RLoadClosing(frame) =>
        LoadsFromFrame(s, acts[k].re, s');
      case RStoreClosing(frame, local) =>
        StoresFromLoad(s, acts[k].re, s');
        LookConcludes(states, acts, k, WireItem.PeerCloses(frame));
      case RJudge(_, _) =>
        JudgesFromItem(s, acts[k].re, s');
      case RPublishPeer(o) => PublishesFromItem(states, acts, k, o);
      case RPublishFailure(o) => PublishesFromItem(states, acts, k, o);
      case _ =>
    }
  }

  lemma ReaderTakes(s: State, ev: ReaderEvent, s': State)
    requires Sound(s) && Next(s, ReaderActs(ev), s')
    ensures EndsCount(s, ev, s') && ReaderEdge(s.cfg.closeTimeout, s.core, s.reader, s'.reader)
    ensures s.inq.gone ==> IsClosed(s.core)
  {
    hide ReaderStep, EndsCount, ReaderEdge, ReaderEffect, Sound;
    SoundReads(s);
    StepEndsReading(s, ev, s');
    ReaderSummarized(s, ev, s');
    GoneMeansClosed(s);
  }

  lemma GoneMeansClosed(s: State)
    requires Sound(s)
    ensures s.inq.gone ==> IsClosed(s.core)
  {
    hide CoreOk, ReaderOk, WriterOk, DogsOk, CallersOk, RepliesOk, OutboundOk, Counting.Counted, Counting.OneWatchdog;
    hide Timers.Timed, Outflow.Conserved, SendOrder.Ordered, SendOrder.WireTimed, Inflow.Delivering, Settling.Owed;
    hide Settling.Settled;
  }

  lemma LoadsFromFrame(s: State, ev: ReaderEvent, s': State)
    requires EndsCount(s, ev, s') && s'.reader.RLoadClosing?
    ensures ReadsAt(ReaderActs(ev), WireItem.PeerCloses(s'.reader.frame))
  {
  }

  lemma StoresFromLoad(s: State, ev: ReaderEvent, s': State)
    requires EndsCount(s, ev, s') && ReaderEdge(s.cfg.closeTimeout, s.core, s.reader, s'.reader)
    requires s'.reader.RStoreClosing?
    ensures Undecided(s.reader, WireItem.PeerCloses(s'.reader.frame)) && s'.reader.local == s.core.closing
    ensures s.reader == RLoadClosing(s'.reader.frame)
    ensures Conclusion(WireItem.PeerCloses(s'.reader.frame), s.core.closing)
            == ClassifyClose(s'.reader.frame, s'.reader.local)
  {
  }

  lemma JudgesFromItem(s: State, ev: ReaderEvent, s': State)
    requires EndsCount(s, ev, s') && s'.reader.RJudge?
    ensures s.inq.gone || exists item :: Undecided(s'.reader, item) && ReadsAt(ReaderActs(ev), item)
  {
    hide Undecided;
    if !s.inq.gone {
      assert ReadsAt(ReaderActs(ev), ev.item);
    }
  }

  // The reader looks at `closing` with the item in hand.
  lemma LookConcludes(states: seq<State>, acts: seq<Action>, k: nat, item: WireItem)
    requires |states| == |acts| + 1 && k < |acts| && Sound(states[k]) && Traced(states, acts, k)
    requires EndsReading(item) && Undecided(states[k].reader, item) && ReadBy(acts, k, item)
    ensures ConcludedBy(states, acts, k + 1, Conclusion(item, states[k].core.closing))
  {
    hide Sound, Undecided, Conclusion, FrameRead, EndSeen, JudgedOrderly, LocalBegan, ReadBy, Begins;
    ClosingIsBegun(states[k], item);
    HistoryGrows(states, acts, k);
    CausesLast(states, acts, k);
    assert EndsReading(item) && ReadBy(acts, k + 1, item);
  }

  lemma PublishesFromItem(states: seq<State>, acts: seq<Action>, k: nat, o: DriverError)
    requires |states| == |acts| + 1 && k < |acts| && Next(states[k], acts[k], states[k + 1]) && acts[k].ReaderActs?
    requires Sound(states[k]) && Traced(states, acts, k) && ReaderCaused(states, acts, k)
    requires EndsCount(states[k], acts[k].re, states[k + 1]) && Endings.Publishes(states[k + 1].reader, o)
    requires IsClosed(states[k].core) ==> IsClosed(states[k + 1].core)
    ensures IsClosed(states[k + 1].core) || ConcludedBy(states, acts, k + 1, o)
  {
    hide Next, Sound, ConcludedBy, ReadBy, Conclusion, Undecided, FrameRead, EndSeen, JudgedOrderly, LocalBegan;
    var s, s' := states[k], states[k + 1];
    if s.reader.RStoreClosing? {
      var c := ClassifyClose(s.reader.frame, s.reader.local);
      ReaderStores(s, acts[k].re, s', c);
      ConclusionsLast(states, acts, k, c);
    } else if !IsClosed(s.core) {
      assert s.reader.RJudge?;
      var item :| Undecided(s.reader, item) && ReadBy(acts, k, item);
      ItemsEndReading(s.reader, item);
      ReaderConcludes(s, acts[k].re, s', item);
      LookConcludes(states, acts, k, item);
    }
  }

  lemma ItemsEndReading(r: Reader, item: WireItem)
    requires Undecided(r, item)
    ensures EndsReading(item)
  {
  }

  // ----- the theorem -----

  lemma {:induction false} RunIsCaused(states: seq<State>, acts: seq<Action>, k: nat)
    requires Run(states, acts) && k < |states|
    ensures ReaderCaused(states, acts, k) && OutcomeCaused(states, acts, k)
  {
    hide Next, Sound, ReaderCaused, Caused, Traced, WriterTraced, Patient;
    if k == 0 {
      assert ReaderCaused(states, acts, 0) by { FreshIsCaused(states, acts); }
    } else {
      hide Init, OutcomeCaused;
      RunIsCaused(states, acts, k - 1);
      RunIsSound(states, acts, k - 1);
      Outcomes.RunIsTraced(states, acts, k - 1);
      Writes.RunIsTraced(states, acts, k - 1);
      RunIsPatient(states, acts, k - 1);
      ReaderIsCaused(states, acts, k - 1);
      OutcomeIsCaused(states, acts, k - 1);
    }
  }

  lemma FreshIsCaused(states: seq<State>, acts: seq<Action>)
    requires |states| == |acts| + 1 && Init(states[0])
    ensures ReaderCaused(states, acts, 0)
  {
  }

  // Whatever a connection is Closed with, or known to end with, was caused by
  // an abort(), by a close that took close_timeout or longer, by an item read
  // off the wire and what it means, or by an error in writing.
  lemma EveryOutcomeHasACause(states: seq<State>, acts: seq<Action>, k: nat)
    requires Run(states, acts) && k < |states|
    requires states[k].core.state.value.Closed? || states[k].core.state.value.PeerClosed?
    ensures Caused(states, acts, k, states[k].core.state.value.outcome)
  {
    hide Init, Next, ReaderCaused, Caused;
    RunIsCaused(states, acts, k);
  }

  // None of the other causes reads as a timeout.
  lemma NothingElseTimesOut(item: WireItem, local: bool, w: Writer, text: string)
    requires EndsReading(item)
    ensures Conclusion(item, local) != TIMED_OUT && IoFailure(w, text) != TIMED_OUT && ABANDONED != TIMED_OUT
  {
    var timedOut := "WebSocket close timed out";
    assert ("WebSocket receive failed: " + text)[10] == 'r' != timedOut[10];
    assert ("WebSocket send failed: " + text)[10] == 's' != timedOut[10];
    assert ("WebSocket close failed: " + text)[16] == 'f' != timedOut[16];
    assert "WebSocket transport ended without a close frame"[10] == 't' != timedOut[10];
    assert "WebSocket control flush failed"[11] == 'o' != timedOut[11];
    assert "connection was abandoned"[0] != timedOut[0];
  }

  // A close is reported as timed out only after close_timeout.
  lemma TimeoutsAreNotEarly(states: seq<State>, acts: seq<Action>, k: nat)
    requires Run(states, acts) && k < |states| && states[k].core.state.value == Closed(TIMED_OUT)
    ensures Overdue(states[k].core, states[k].cfg.closeTimeout)
  {
    hide Init, Next, ReadBy, Conclusion, IoFailure, Onward;
    RunIsCaused(states, acts, k);
    OnlyTheDogTimesOut(states, acts, k);
    var m :| 0 <= m < k && FiresAt(states[m], acts[m]);
    RunOnward(states, acts, m, k);
    SinceIsKept(states[m].core, states[k].core);
    ConfigIsKept(states, acts, m, k);
  }

  lemma SinceIsKept(c: Core, d: Core)
    requires Onward(c, d) && c.since.Some?
    ensures d.since == c.since && c.now <= d.now
  {
  }

  lemma {:induction false} ConfigIsKept(states: seq<State>, acts: seq<Action>, j: nat, k: nat)
    requires Run(states, acts) && j <= k < |states|
    ensures states[k].cfg == states[j].cfg
    decreases k
  {
    hide Init, Next;
    if j == k {
    } else {
      ConfigIsKept(states, acts, j, k - 1);
      Fairness.OnlyOwnSteps(states[k - 1], Some(acts[k - 1]), states[k]);
    }
  }

  lemma OnlyTheDogTimesOut(states: seq<State>, acts: seq<Action>, k: nat)
    requires |states| == |acts| + 1 && k <= |acts| && Caused(states, acts, k, TIMED_OUT)
    ensures TimedOutBy(states, acts, k)
  {
    hide ReadBy, Conclusion, IoFailure, AbandonedBy, TimedOutBy;
    if ConcludedBy(states, acts, k, TIMED_OUT) {
      var item, local :| EndsReading(item) && ReadBy(acts, k, item) && TIMED_OUT == Conclusion(item, local);
      NothingElseTimesOut(item, local, WFlush, "");
    } else if WriteFailedBy(states, acts, k, TIMED_OUT) {
      var held :| FailedBy(states, acts, k, TIMED_OUT, held);
      var m :| 0 <= m < k && FailsAt(states[m], acts[m], TIMED_OUT, held);
      NothingElseTimesOut(EndOfStream, false, states[m].writer, acts[m].we.text);
    } else {
      NothingElseTimesOut(EndOfStream, false, WFlush, "");
    }
  }

  // ----- the reader's own timer -----

  // The wait of finish_peer_close that began at j.
  ghost predicate WaitedSince(states: seq<State>, k: nat, deadline: nat)
    requires k < |states|
  {
    exists j :: 0 <= j < k && states[j].reader.RArm?
                && deadline == states[j].core.now + states[j].cfg.closeTimeout
  }

  // It gives up at x: its time is over and nobody has closed the state.
  ghost predicate GivesUpAt(states: seq<State>, acts: seq<Action>, x: nat)
    requires x < |acts| && |states| == |acts| + 1
  {
    var s := states[x];
    && acts[x].ReaderActs? && s.reader.RWaitPark? && s.reader.deadline <= s.core.now && !IsClosed(s.core)
    && WaitedSince(states, x, s.reader.deadline)
  }

  ghost predicate WaitTraced(states: seq<State>, acts: seq<Action>, k: nat)
    requires k < |states| == |acts| + 1
  {
    match states[k].reader
    case RWaitCheck(_, deadline, _) => WaitedSince(states, k, deadline)
    case RWaitPark(_, deadline, _) => WaitedSince(states, k, deadline)
    case RLateTerminal(_) => exists x :: 0 <= x < k && GivesUpAt(states, acts, x)
    case _ => true
  }

  lemma ReaderWaitsFrom(s: State, ev: ReaderEvent, s': State)
    requires Next(s, ReaderActs(ev), s')
    ensures s'.reader.RWaitCheck? ==>
              if s.reader.RArm? then s'.reader.deadline == s.core.now + s.cfg.closeTimeout
              else s.reader.RWaitPark? && s'.reader.deadline == s.reader.deadline
    ensures s'.reader.RWaitPark? ==> s.reader.RWaitCheck? && s'.reader.deadline == s.reader.deadline
    ensures s'.reader.RLateTerminal? ==> s.reader.RWaitPark? && s.reader.deadline <= s.core.now
    ensures s'.reader.RLateTerminal? ==> s.core.state.version <= s.reader.seen
  {
    hide ReaderStep, ReaderEffect;
    ReaderSummarized(s, ev, s');
    ExpiryIsLast(s, ev, s');
  }

  // A change of state that is there wins over the timer.
  lemma ExpiryIsLast(s: State, ev: ReaderEvent, s': State)
    requires Next(s, ReaderActs(ev), s')
    ensures s'.reader.RLateTerminal? ==> s.reader.RWaitPark? && s.core.state.version <= s.reader.seen
  {
    if ReaderReads(s, ev, s') {
      match s.reader { case RSelect => case RTop => case _ => }
    } else if QueueInbound(s, ev, s') {
      match s.reader { case RGate(_) => case RAcquire(_) => case _ => }
    } else if ReaderJudges(s, ev, s') {
      match s.reader { case RLoadClosing(_) => case RStoreClosing(_, _) => case _ => }
    } else if FinishPeerClose(s, ev, s') {
      match s.reader { case RPublishPeer(_) => case RSignalPeer(_) => case _ => }
    } else if ReaderWaits(s, ev, s') {
      match s.reader { case RWaitCheck(_, _, _) => case RWaitPark(_, _, _) => case RLateTerminal(_) => case _ => }
    } else if FinishReaderFailure(s, ev, s') {
      match s.reader { case RPublishFailure(_) => case RSignalFailure => case _ => }
    } else if ReaderDrops(s, ev, s') {
      match s.reader { case RDropControl => case RDropInbound => case _ => }
    }
  }

  lemma UnseenIsOpen(s: State)
    requires Sound(s) && s.reader.RWaitPark? && s.core.state.version <= s.reader.seen
    ensures !IsClosed(s.core)
  {
    hide CoreOk, WriterOk, DogsOk, CallersOk, RepliesOk, InboundOk, OutboundOk, Counting.Counted, Justified;
    hide Counting.OneWatchdog, Timers.Timed, Outflow.Conserved, SendOrder.Ordered, SendOrder.WireTimed;
    hide Inflow.Delivering, Settling.Owed, Settling.Settled;
  }

  lemma {:induction false} RunWaits(states: seq<State>, acts: seq<Action>, k: nat)
    requires Run(states, acts) && k < |states|
    ensures WaitTraced(states, acts, k)
  {
    hide Next, Sound, WaitedSince;
    if k == 0 {
    } else {
      hide Init;
      RunWaits(states, acts, k - 1);
      WaitsGrow(states, k - 1);
      RunIsSound(states, acts, k - 1);
      if acts[k - 1].ReaderActs? {
        ReaderWaitsFrom(states[k - 1], acts[k - 1].re, states[k]);
        if states[k].reader.RLateTerminal? {
          UnseenIsOpen(states[k - 1]);
          assert GivesUpAt(states, acts, k - 1);
        }
      } else {
        Fairness.OnlyOwnSteps(states[k - 1], Some(acts[k - 1]), states[k]);
      }
    }
  }

  lemma WaitsGrow(states: seq<State>, k: nat)
    requires k + 1 < |states|
    ensures forall deadline :: WaitedSince(states, k, deadline) ==> WaitedSince(states, k + 1, deadline)
    ensures states[k].reader.RArm? ==>
              WaitedSince(states, k + 1, states[k].core.now + states[k].cfg.closeTimeout)
  {
  }

  // After a peer close the reader gives up waiting for the handshake only when
  // close_timeout has passed since it began to wait and the state is not Closed.
  lemma ReaderWaitsLongEnough(states: seq<State>, acts: seq<Action>, k: nat)
    requires Run(states, acts) && k < |states| && states[k].reader.RLateTerminal?
    ensures exists j, x :: 0 <= j < x < k && states[j].reader.RArm? && states[x].reader.RWaitPark?
                           && states[j].core.now + states[k].cfg.closeTimeout <= states[x].core.now
                           && !IsClosed(states[x].core)
  {
    hide Init, Next;
    RunWaits(states, acts, k);
    var x :| 0 <= x < k && GivesUpAt(states, acts, x);
    var j :| 0 <= j < x && states[j].reader.RArm?
             && states[x].reader.deadline == states[j].core.now + states[j].cfg.closeTimeout;
    ConfigIsKept(states, acts, j, k);
  }
}
