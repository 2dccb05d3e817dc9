// Every close is bounded (src/driver.rs, begin_close, finish_peer_close and
// close_timeout_expired): from the moment `closing` is set until the state is
// Closed, somebody is about to publish or holds a timer that is not overdue.
module Timers {
  import opened Machine
  import opened Effects
  import opened Assertions
  import opened Counting

  // About to publish the first change of state.
  ghost predicate PublisherAt(p: Caller) { p.CBegin? || p.APublish? }

  // On the way to spawning the watchdog.
  ghost predicate SpawnerAt(p: Caller) { p.CSignal? || p.CTimer? || p.CSpawn? }

  // A watchdog whose time runs from t.
  ghost predicate DogHolds(now: nat, timeout: nat, t: nat, d: Dog) {
    match d
    case DStart(_) => now == t
    case DCheck(_, deadline) => deadline == t + timeout && now <= deadline
    case DPark(_, deadline) => deadline == t + timeout && now <= deadline
    case DFire => now <= t + timeout
    case _ => false
  }

  ghost predicate ReaderHolds(now: nat, timeout: nat, t: nat, r: Reader) {
    match r
    case RSignalPeer(_) => now == t
    case RArm(_) => now == t
    case RWaitCheck(_, deadline, _) => deadline == t + timeout && now <= deadline
    case RWaitPark(_, deadline, _) => deadline == t + timeout && now <= deadline
    case RLateTerminal(_) => now <= t + timeout
    case _ => false
  }

  ghost predicate SomePublisher(callers: seq<Caller>) { exists i :: 0 <= i < |callers| && PublisherAt(callers[i]) }

  ghost predicate SomeSpawner(callers: seq<Caller>) { exists i :: 0 <= i < |callers| && SpawnerAt(callers[i]) }

  ghost predicate SomeDogHolds(now: nat, timeout: nat, t: nat, dogs: seq<Dog>) {
    exists k :: 0 <= k < |dogs| && DogHolds(now, timeout, t, dogs[k])
  }

  ghost predicate LocalHolds(s: State, t: nat) {
    (SomeSpawner(s.callers) && s.core.now == t) || SomeDogHolds(s.core.now, s.cfg.closeTimeout, t, s.dogs)
  }

  ghost predicate Held(s: State, t: nat) {
    match s.core.state.value
    case Open => s.core.now == t && (SomePublisher(s.callers) || s.reader.RPublishPeer?)
    case Closing => LocalHolds(s, t)
    case PeerClosed(_) => LocalHolds(s, t) || ReaderHolds(s.core.now, s.cfg.closeTimeout, t, s.reader)
    case Closed(_) => true
  }

  ghost predicate Timed(s: State) {
    s.core.since.Some? ==> Held(s, s.core.since.value)
  }

  // ----- the tasks -----

  lemma ReaderHoldsOn(timeout: nat, c: Core, r: Reader, r': Reader)
    requires CoreOk(c) && ReaderEdge(timeout, c, r, r')
    ensures var d := ReaderEffect(c, r);
            && d.now == c.now
            && (c.since.Some? ==> d.since == c.since)
            && (c.since.None? && d.since.Some? ==> d.since.value == c.now && d.state == c.state && r'.RPublishPeer?)
            && (d.state == c.state || IsClosed(d)
                || (r.RPublishPeer? && r'.RSignalPeer? && d.state.value.PeerClosed? && !IsClosed(c)))
            && (r.RPublishPeer? && c.state.value.Open? ==> !d.state.value.Open?)
            && (forall t :: ReaderHolds(c.now, timeout, t, r) ==> ReaderHolds(c.now, timeout, t, r') || IsClosed(d))
            && (r'.RSignalPeer? ==> forall t :: c.now == t ==> ReaderHolds(c.now, timeout, t, r'))
  {
    AbortsMeanClosed(c);
    match r {
      case RStoreClosing(_, _) => case RJudge(_, _) => case RPublishPeer(_) => case RSignalPeer(_) => case RArm(_) =>
      case RWaitCheck(_, _, _) => case RWaitPark(_, _, _) => case RLateTerminal(_) =>
      case RPublishFailure(_) => case _ =>
    }
  }

  lemma ReaderKeepsHold(s: State, ev: ReaderEvent, s': State)
    requires Asserted(s) && ReaderStep(s, ev, s') && Timed(s)
    ensures Timed(s')
  {
    hide ReaderStep, ReaderEdge, ReaderEffect, ReaderHolds, DogHolds, SomePublisher, SomeSpawner, SomeDogHolds;
    hide ReaderOk, WriterOk, DogsOk, CallersOk, RepliesOk, InboundOk, OutboundOk;
    ReaderSummarized(s, ev, s');
    ReaderHoldsOn(s.cfg.closeTimeout, s.core, s.reader, s'.reader);
  }

  lemma WriterKeepsHold(s: State, ev: WriterEvent, s': State)
    requires Asserted(s) && WriterStep(s, ev, s') && Timed(s)
    ensures Timed(s')
  {
    hide WriterStep, WriterEdge, WriterEffect, ReaderOk, WriterOk, DogsOk, CallersOk, RepliesOk, InboundOk;
    hide OutboundOk, Held, CoreOk;
    WriterSummarized(s, ev, s');
    WriterClosesOnly(s.core, s.writer, s.writerSeen);
    HeldWhileUnchanged(s, s');
  }

  // The writer publishes nothing but terminal values.
  lemma WriterClosesOnly(c: Core, w: Writer, seen: nat)
    requires CoreOk(c) && WriterOk(c, w, seen)
    ensures var d := WriterEffect(c, w);
            d.now == c.now && d.since == c.since && (d.state == c.state || IsClosed(d))
  {
  }

  lemma HeldWhileUnchanged(s: State, s': State)
    requires s'.core.now == s.core.now && s'.core.since == s.core.since && s'.cfg == s.cfg
    requires s'.core.state == s.core.state || IsClosed(s'.core)
    requires s'.reader == s.reader && s'.dogs == s.dogs && s'.callers == s.callers && Timed(s)
    ensures Timed(s')
  {
  }

  lemma DogHoldsOn(timeout: nat, t: nat, c: Core, d: Dog, d': Dog)
    requires DogEdge(timeout, c, d, d') && DogHolds(c.now, timeout, t, d)
    ensures DogHolds(c.now, timeout, t, d') || IsClosed(DogEffect(c, d))
  {
  }

  lemma DogKeepsHold(s: State, k: nat, ev: DogEvent, s': State)
    requires Asserted(s) && k < |s.dogs| && DogStep(s, k, ev, s') && Timed(s)
    ensures Timed(s')
  {
    hide DogStep, DogEdge, DogHolds, ReaderHolds, ReaderOk, WriterOk, DogsOk, CallersOk, RepliesOk, InboundOk;
    hide OutboundOk, CoreOk;
    DogSummarized(s, k, ev, s');
    DogClosesOnly(s.core, s.dogs[k]);
    if s.core.since.Some? {
      var t := s.core.since.value;
      if SomeDogHolds(s.core.now, s.cfg.closeTimeout, t, s.dogs) {
        var j :| 0 <= j < |s.dogs| && DogHolds(s.core.now, s.cfg.closeTimeout, t, s.dogs[j]);
        if j == k {
          DogHoldsOn(s.cfg.closeTimeout, t, s.core, s.dogs[k], s'.dogs[k]);
        }
        assert IsClosed(s'.core) || DogHolds(s'.core.now, s.cfg.closeTimeout, t, s'.dogs[j]);
      }
    }
  }

  lemma DogClosesOnly(c: Core, d: Dog)
    ensures var e := DogEffect(c, d);
            e.now == c.now && e.since == c.since && (e.state == c.state || IsClosed(e))
  {
  }

  // ----- the calls -----

  lemma CallerHoldsOn(c: Core, p: Caller, p': Caller)
    requires CoreOk(c) && CallerOk(c, p)
    requires if Controls(p) then ControlEdge(c, p, p') else !Controls(p')
    requires p.CTimer? ==> !c.timerStarted
    ensures var d := CallerEffect(c, p);
            && d.now == c.now
            && (c.since.Some? ==> d.since == c.since)
            && (c.since.None? && d.since.Some? ==> d.since.value == c.now && d.state == c.state && PublisherAt(p'))
            && (c.since.None? && !IsClosed(c) ==> c.state.value.Open?)
            && (d.state == c.state || IsClosed(d) || (c.state.value.Open? && d.state.value.Closing? && SpawnerAt(p')))
            && (PublisherAt(p) && c.state.value.Open? ==> !d.state.value.Open?)
            && (SpawnerAt(p) ==> SpawnerAt(p') || p.CSpawn?)
  {
  }

  lemma SomeonesNext(callers: seq<Caller>, i: nat, p': Caller)
    requires i < |callers|
    ensures SomeSpawner(callers) && (SpawnerAt(callers[i]) ==> SpawnerAt(p')) ==> SomeSpawner(callers[i := p'])
    ensures SomePublisher(callers) && !PublisherAt(callers[i]) ==> SomePublisher(callers[i := p'])
    ensures SpawnerAt(p') ==> SomeSpawner(callers[i := p'])
    ensures PublisherAt(p') ==> SomePublisher(callers[i := p'])
  {
    var after := callers[i := p'];
    assert after[i] == p';
    assert forall j :: 0 <= j < |callers| && j != i ==> after[j] == callers[j];
  }

  lemma CallerKeepsHold(s: State, i: nat, ev: CallEvent, s': State)
    requires Asserted(s) && OneWatchdog(s) && Counted(s) && Next(s, CallerActs(i, ev), s') && Timed(s)
    ensures Timed(s')
  {
    hide Next, CallerEffect, ControlEdge, Controls, SomeSpawner, SomePublisher, SpawnerAt, PublisherAt, ReaderHolds;
    hide ReaderOk, WriterOk, DogsOk, CallerOk, RepliesOk, InboundOk, OutboundOk, CoreOk, OneWatchdog, Counted;
    CallerSummarized(s, i, ev, s');
    assert CallerOk(s.core, s.callers[i]);
    CallerKeepsCount(s, i, ev, s');
    CallerHoldsOn(s.core, s.callers[i], s'.callers[i]);
    SomeonesNext(s.callers, i, s'.callers[i]);
    DogsGrow(s.core.now, s.cfg.closeTimeout, s.dogs, DStart(s.core.state.version));
  }

  lemma DogsGrow(now: nat, timeout: nat, dogs: seq<Dog>, d: Dog)
    ensures forall t :: SomeDogHolds(now, timeout, t, dogs) ==> SomeDogHolds(now, timeout, t, dogs + [d])
    ensures forall t :: DogHolds(now, timeout, t, d) ==> SomeDogHolds(now, timeout, t, dogs + [d])
  {
    var after := dogs + [d];
    assert after[|dogs|] == d;
    assert forall k :: 0 <= k < |dogs| ==> after[k] == dogs[k];
  }

  // ----- the clock -----

  lemma AmbientKeepsHold(s: State, a: Action, s': State)
    requires Asserted(s) && (Starts(s, a, s') || Ambient(s, a, s')) && Timed(s)
    ensures Timed(s')
  {
    if a.Ticks? {
      if s.core.since.Some? && SomeDogHolds(s.core.now, s.cfg.closeTimeout, s.core.since.value, s.dogs) {
        var k :| 0 <= k < |s.dogs| && DogHolds(s.core.now, s.cfg.closeTimeout, s.core.since.value, s.dogs[k]);
        assert DogHolds(s'.core.now, s.cfg.closeTimeout, s.core.since.value, s'.dogs[k]);
      }
    } else if Starts(s, a, s') {
      assert forall i :: 0 <= i < |s.callers| ==> s'.callers[i] == s.callers[i];
    }
  }

  lemma StepKeepsHold(s: State, a: Action, s': State)
    requires Asserted(s) && Counted(s) && OneWatchdog(s) && Next(s, a, s') && Timed(s)
    ensures Timed(s')
  {
    hide Asserted, Counted, OneWatchdog, Timed, ReaderStep, WriterStep, DogStep, Starts, Ambient;
    hide CloseStep, BeginCloseStep, AborterStep, AdmitStep, SendStep, ClaimStep, ReceiveStep;
    match a {
      case ReaderActs(ev) => ReaderKeepsHold(s, ev, s');
      case WriterActs(ev) => WriterKeepsHold(s, ev, s');
      case DogActs(k, ev) => DogKeepsHold(s, k, ev, s');
      case CallerActs(i, ev) => CallerKeepsHold(s, i, ev, s');
      case _ => AmbientKeepsHold(s, a, s');
    }
  }

  // Who is responsible for an unfinished close.
  ghost predicate SomebodyWillFinish(s: State) {
    || (exists i :: 0 <= i < |s.callers| && (PublisherAt(s.callers[i]) || SpawnerAt(s.callers[i])))
    || (exists k :: 0 <= k < |s.dogs|
                    && (s.dogs[k].DStart? || s.dogs[k].DCheck? || s.dogs[k].DPark? || s.dogs[k].DFire?))
    || s.reader.RPublishPeer? || s.reader.RSignalPeer? || s.reader.RArm? || s.reader.RWaitCheck? || s.reader.RWaitPark?
    || s.reader.RLateTerminal?
  }

  // Once `closing` is set there is a begin_close or abort in flight, a live
  // watchdog, or a reader past its close branch, and the state is Closed no
  // later than close_timeout afterwards.
  lemma HeldCloseIsBounded(s: State)
    requires Asserted(s) && Timed(s) && s.core.closing && !IsClosed(s.core)
    ensures SomebodyWillFinish(s)
    ensures s.core.now <= s.core.since.value + s.cfg.closeTimeout
  {
  }
}
