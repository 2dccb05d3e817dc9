// The two progress theorems: on every fair endless run a Closed connection
// drains to nothing, and every close() returns unless it is cancelled
// (src/driver.rs).
module Liveness {
  import opened Errors
  import opened Lanes
  import opened Sums
  import opened Machine
  import opened Effects
  import opened Assertions
  import opened Counting
  import opened Timers
  import opened Settling
  import opened Runs
  import opened Fairness
  import opened Draining
  import Outflow
  import SendOrder
  import Inflow
  import Traffic

  // ----- every debt is paid -----

  function CallDebtToReader(s: State, i: nat): nat {
    if s.core.signal.value.Abort? || s.core.readerAbort then 0
    else if i < |s.callers| && (s.callers[i].ASignal? || s.callers[i].AReader?) then 1 else FAR
  }

  function CallDebtToWriter(s: State, i: nat): nat {
    if s.core.writerAbort then 0
    else if i >= |s.callers| then FAR
    else match s.callers[i] case ASignal(_) => 3 case AReader(_) => 2 case AWriter(_) => 1 case _ => FAR
  }

  function DogDebtToReader(s: State, k: nat): nat {
    if s.core.readerAbort then 0 else if k < |s.dogs| && s.dogs[k].DAbortReader? then 1 else FAR
  }

  function DogDebtToWriter(s: State, k: nat): nat {
    if s.core.writerAbort then 0
    else if k >= |s.dogs| then FAR
    else match s.dogs[k] case DAbortReader => 2 case DAbortWriter => 1 case _ => FAR
  }

  function ReaderDebt(s: State): nat {
    if s.core.writerAbort then 0
    else match s.reader case RSignalFailure => 2 case RAbortWriter => 1 case RLateAbort => 1 case _ => FAR
  }

  function WriterDebt(s: State): nat {
    if s.core.signal.value.Abort? then 0 else if s.writer.WFailSignal? then 1 else FAR
  }

  // Requests are never taken back.
  lemma RequestsStay(s: State, a: Option<Action>, s': State)
    requires Sound(s) && StepOrStay(s, a, s')
    ensures s.core.readerAbort ==> s'.core.readerAbort
    ensures s.core.writerAbort ==> s'.core.writerAbort
    ensures s.core.signal.value.Abort? ==> s'.core.signal.value.Abort?
  {
    hide Sound, Next;
    if a.Some? {
      StepIsSound(s, a.value, s');
    }
  }

  lemma CallerPaysReader(s: State, i: nat, a: Option<Action>, s': State)
    requires Sound(s) && StepOrStay(s, a, s')
    ensures Falls(FAR, CallDebtToReader(s, i), Ready(s, TheCaller(i)),
                  CallDebtToReader(s', i), Performs(a, TheCaller(i)))
  {
    hide Sound, Next, Controls;
    RequestsStay(s, a, s');
    OnlyOwnSteps(s, a, s');
    if Performs(a, TheCaller(i)) {
      CallerSummarized(s, i, a.value.ce, s');
      AbortersControl(s.callers[i]);
    }
  }

  lemma CallerPaysWriter(s: State, i: nat, a: Option<Action>, s': State)
    requires Sound(s) && StepOrStay(s, a, s')
    ensures Falls(FAR, CallDebtToWriter(s, i), Ready(s, TheCaller(i)),
                  CallDebtToWriter(s', i), Performs(a, TheCaller(i)))
  {
    hide Sound, Next, Controls;
    RequestsStay(s, a, s');
    OnlyOwnSteps(s, a, s');
    if Performs(a, TheCaller(i)) {
      CallerSummarized(s, i, a.value.ce, s');
      AbortersControl(s.callers[i]);
    }
  }

  lemma AbortersControl(p: Caller)
    ensures p.ASignal? || p.AReader? || p.AWriter? ==> Controls(p)
  {
  }

  lemma DogPaysReader(s: State, k: nat, a: Option<Action>, s': State)
    requires Sound(s) && StepOrStay(s, a, s')
    ensures Falls(FAR, DogDebtToReader(s, k), Ready(s, TheDog(k)), DogDebtToReader(s', k), Performs(a, TheDog(k)))
  {
    hide Sound;
    RequestsStay(s, a, s');
    OnlyOwnSteps(s, a, s');
    if Performs(a, TheDog(k)) {
      DogSummarized(s, k, a.value.de, s');
    }
  }

  lemma DogPaysWriter(s: State, k: nat, a: Option<Action>, s': State)
    requires Sound(s) && StepOrStay(s, a, s')
    ensures Falls(FAR, DogDebtToWriter(s, k), Ready(s, TheDog(k)), DogDebtToWriter(s', k), Performs(a, TheDog(k)))
  {
    hide Sound;
    RequestsStay(s, a, s');
    OnlyOwnSteps(s, a, s');
    if Performs(a, TheDog(k)) {
      DogSummarized(s, k, a.value.de, s');
    }
  }

  lemma ReaderPays(s: State, a: Option<Action>, s': State)
    requires Sound(s) && StepOrStay(s, a, s')
    ensures Falls(FAR, ReaderDebt(s), Ready(s, TheReader), ReaderDebt(s'), Performs(a, TheReader))
  {
    hide Sound, Next;
    RequestsStay(s, a, s');
    OnlyOwnSteps(s, a, s');
    if Performs(a, TheReader) {
      ReaderActuallySteps(s, a.value.re, s');
    }
  }

  lemma WriterPays(s: State, a: Option<Action>, s': State)
    requires Sound(s) && StepOrStay(s, a, s')
    ensures Falls(FAR, WriterDebt(s), Ready(s, TheWriter), WriterDebt(s'), Performs(a, TheWriter))
  {
    hide Sound, Next;
    RequestsStay(s, a, s');
    OnlyOwnSteps(s, a, s');
    if Performs(a, TheWriter) && s.writer.WFailSignal? {
      WriterActuallySignals(s, a.value.we, s');
    }
  }

  lemma WriterActuallySignals(s: State, ev: WriterEvent, s': State)
    requires Next(s, WriterActs(ev), s') && s.writer.WFailSignal?
    ensures s'.core.signal.value.Abort?
  {
  }

  // ----- the reader ends -----

  // Somebody who owes the reader a signal or an abort delivers it.
  lemma ReaderIsReached(h: History, w: Schedule, n: nat) returns (m: nat)
    requires Fair(h, w) && IsClosed(h(n).core) && ReaderLooping(h(n).reader)
    ensures n <= m && (h(m).core.signal.value.Abort? || h(m).core.readerAbort)
  {
    hide Sound, Follows, Ready, Performs, Weakly, AbortsHonoured, Init;
    EndlessIsSound(h, w, n);
    SoundIsOwed(h(n));
    if CallOwesReader(h(n).callers) {
      var i :| 0 <= i < |h(n).callers| && OwesReader(h(n).callers[i]);
      var rank := (s: State) => CallDebtToReader(s, i);
      forall k: nat | n <= k ensures Lowers(h, w, TheCaller(i), rank, FAR, k) {
        EndlessStep(h, w, k);
        CallerPaysReader(h(k), i, w(k), h(k + 1));
      }
      m := Progress(h, w, TheCaller(i), rank, FAR, n);
    } else if h(n).writer.WFailSignal? {
      forall k: nat | n <= k ensures Lowers(h, w, TheWriter, WriterDebt, FAR, k) {
        EndlessStep(h, w, k);
        WriterPays(h(k), w(k), h(k + 1));
      }
      m := Progress(h, w, TheWriter, WriterDebt, FAR, n);
    } else if DogOwesReader(h(n).dogs) {
      var j :| 0 <= j < |h(n).dogs| && h(n).dogs[j].DAbortReader?;
      var rank := (s: State) => DogDebtToReader(s, j);
      forall k: nat | n <= k ensures Lowers(h, w, TheDog(j), rank, FAR, k) {
        EndlessStep(h, w, k);
        DogPaysReader(h(k), j, w(k), h(k + 1));
      }
      m := Progress(h, w, TheDog(j), rank, FAR, n);
    } else {
      m := n;
    }
  }

  lemma SoundIsOwed(s: State)
    requires Sound(s)
    ensures Owed(s)
  {
  }

  lemma EndlessStep(h: History, w: Schedule, k: nat)
    requires Endless(h, w)
    ensures Sound(h(k)) && StepOrStay(h(k), w(k), h(k + 1))
  {
    hide Sound, Init, Next;
    EndlessIsSound(h, w, k);
    assert Follows(h, w, k);
  }

  // A requested abort that is honoured leaves the reader on its way out.
  lemma AbortEndsReader(h: History, w: Schedule, n: nat) returns (m: nat)
    requires Fair(h, w) && h(n).core.readerAbort
    ensures n <= m && ReaderEnded(h(m).reader)
  {
    hide Sound, Follows, Ready, Performs, Weakly, Init;
    assert AbortsHonoured(h, w, n);
    m :| n <= m && (w(m) == Some(ReaderActs(RAborted)) || ReaderEnded(h(m).reader));
    if !ReaderEnded(h(m).reader) {
      EndlessStep(h, w, m);
      AbortUnwindsReader(h(m), h(m + 1));
      m := m + 1;
    }
  }

  lemma AbortUnwindsReader(s: State, s': State)
    requires Next(s, ReaderActs(RAborted), s')
    ensures s'.reader.RDropControl?
  {
  }

  lemma ReaderEnds(h: History, w: Schedule, n: nat) returns (m: nat)
    requires Fair(h, w) && IsClosed(h(n).core)
    ensures n <= m && h(m).reader.RDone?
  {
    hide Sound, Follows, Ready, Performs, Weakly, AbortsHonoured, Init;
    var k := n;
    if ReaderLooping(h(n).reader) {
      k := ReaderIsReached(h, w, n);
      if !h(k).core.signal.value.Abort? {
        k := AbortEndsReader(h, w, k);
      }
    }
    forall j: nat | k <= j ensures Lowers(h, w, TheReader, ReaderRank, FAR, j) {
      EndlessStep(h, w, j);
      ClosedForGood(h, w, n, j);
      ReaderDescends(h(j), w(j), h(j + 1));
    }
    m := Progress(h, w, TheReader, ReaderRank, FAR, k);
  }

  // ----- the writer ends -----

  lemma WriterIsReached(h: History, w: Schedule, n: nat) returns (m: nat)
    requires Fair(h, w) && IsClosed(h(n).core) && !Leaving(h(n).writer)
    ensures n <= m && h(m).core.writerAbort
  {
    hide Sound, Follows, Ready, Performs, Weakly, AbortsHonoured, Init;
    EndlessIsSound(h, w, n);
    SoundIsOwed(h(n));
    if CallOwesWriter(h(n).callers) {
      var i :| 0 <= i < |h(n).callers| && OwesWriter(h(n).callers[i]);
      var rank := (s: State) => CallDebtToWriter(s, i);
      forall k: nat | n <= k ensures Lowers(h, w, TheCaller(i), rank, FAR, k) {
        EndlessStep(h, w, k);
        CallerPaysWriter(h(k), i, w(k), h(k + 1));
      }
      m := Progress(h, w, TheCaller(i), rank, FAR, n);
    } else if ReaderOwesWriter(h(n).reader) {
      forall k: nat | n <= k ensures Lowers(h, w, TheReader, ReaderDebt, FAR, k) {
        EndlessStep(h, w, k);
        ReaderPays(h(k), w(k), h(k + 1));
      }
      m := Progress(h, w, TheReader, ReaderDebt, FAR, n);
    } else if DogOwesWriter(h(n).dogs) {
      var j :| 0 <= j < |h(n).dogs| && DogOwes(h(n).dogs[j]);
      var rank := (s: State) => DogDebtToWriter(s, j);
      forall k: nat | n <= k ensures Lowers(h, w, TheDog(j), rank, FAR, k) {
        EndlessStep(h, w, k);
        DogPaysWriter(h(k), j, w(k), h(k + 1));
      }
      m := Progress(h, w, TheDog(j), rank, FAR, n);
    } else {
      m := n;
    }
  }

  lemma AbortEndsWriter(h: History, w: Schedule, n: nat) returns (m: nat)
    requires Fair(h, w) && h(n).core.writerAbort
    ensures n <= m && WriterEnded(h(m).writer)
  {
    hide Sound, Follows, Ready, Performs, Weakly, Init;
    assert AbortsHonoured(h, w, n);
    m :| n <= m && (w(m) == Some(WriterActs(WAborted)) || WriterEnded(h(m).writer));
    if !WriterEnded(h(m).writer) {
      EndlessStep(h, w, m);
      AbortUnwindsWriter(h(m), h(m + 1));
      m := m + 1;
    }
  }

  lemma AbortUnwindsWriter(s: State, s': State)
    requires Next(s, WriterActs(WAborted), s')
    ensures WriterEnded(s'.writer)
  {
  }

  lemma WriterEnds(h: History, w: Schedule, n: nat) returns (m: nat)
    requires Fair(h, w) && IsClosed(h(n).core)
    ensures n <= m && h(m).writer.WDone?
  {
    hide Sound, Follows, Ready, Performs, Weakly, AbortsHonoured, Init;
    var k := n;
    if !Leaving(h(n).writer) {
      k := WriterIsReached(h, w, n);
      k := AbortEndsWriter(h, w, k);
    }
    EndlessStep(h, w, k);
    LeavingIsNear(h(k));
    var cap := h(k).cfg.maxQueue + FAR;
    forall j: nat | k <= j ensures Lowers(h, w, TheWriter, WriterRank, cap, j) {
      EndlessStep(h, w, j);
      ConfigStays(h, w, k, j);
      WriterDescends(h(j), w(j), h(j + 1));
    }
    m := Progress(h, w, TheWriter, WriterRank, cap, k);
  }

  lemma LeavingIsNear(s: State)
    requires Sound(s) && Leaving(s.writer)
    ensures WriterRank(s) < s.cfg.maxQueue + FAR
  {
    hide Asserted, Counted, OneWatchdog, Timed, SendOrder.Ordered, SendOrder.WireTimed, Inflow.Delivering, Owed;
    hide Settled;
  }

  lemma {:induction false} ConfigStays(h: History, w: Schedule, j: nat, k: nat)
    requires Endless(h, w) && j <= k
    ensures h(k).cfg == h(j).cfg
    decreases k
  {
    hide Init, Next;
    if j == k {
    } else {
      ConfigStays(h, w, j, k - 1);
      assert Follows(h, w, k - 1);
      OnlyOwnSteps(h(k - 1), w(k - 1), h(k));
    }
  }

  // ----- no call is left inside begin_close -----

  // In a Closed state such a call will not enter begin_close any more.
  ghost predicate OutOfBegin(p: Caller) { BeginDistance(p) == 0 || p.CRead? }

  // All calls but those from lo to hi.
  ghost predicate OutExcept(callers: seq<Caller>, lo: nat, hi: nat) {
    forall i :: 0 <= i < |callers| && !(lo <= i < hi) ==> OutOfBegin(callers[i])
  }

  lemma StaysOut(c: Core, p: Caller, p': Caller)
    requires IsClosed(c) && OutOfBegin(p)
    requires if Controls(p) then ControlEdge(c, p, p') else !Controls(p')
    ensures OutOfBegin(p')
  {
  }

  lemma StepStaysOut(s: State, a: Option<Action>, s': State, lo: nat, hi: nat)
    requires IsClosed(s.core) && StepOrStay(s, a, s') && hi <= |s.callers| && OutExcept(s.callers, lo, hi)
    ensures OutExcept(s'.callers, lo, hi)
  {
    hide CloseStep, BeginCloseStep, AborterStep, AdmitStep, SendStep, ClaimStep, ReceiveStep, Quiet, OutOfBegin;
    hide ReaderStep, WriterStep, DogStep, ReaderEdge, WriterEdge, DogEdge, ControlEdge, Controls;
    hide ReaderEffect, WriterEffect, DogEffect, CallerEffect;
    if a.Some? {
      match a.value {
        case ReaderActs(ev) => ReaderSummarized(s, ev, s');
        case WriterActs(ev) => WriterSummarized(s, ev, s');
        case DogActs(k, ev) => DogSummarized(s, k, ev, s');
        case CallerActs(i, ev) =>
          CallerSummarized(s, i, ev, s');
          if !(lo <= i < hi) {
            StaysOut(s.core, s.callers[i], s'.callers[i]);
          }
        case CallStarts(c) => FreshIsOut(c);
        case HandleDrops => FreshIsOut(AStore(true));
        case _ =>
      }
    }
  }

  lemma FreshIsOut(p: Caller)
    requires CallerFresh(p) || p == AStore(true)
    ensures OutOfBegin(p)
  {
  }

  lemma {:induction false} EndlessStaysOut(h: History, w: Schedule, j: nat, k: nat, lo: nat, hi: nat)
    requires Endless(h, w) && j <= k && IsClosed(h(j).core) && hi <= |h(j).callers| && OutExcept(h(j).callers, lo, hi)
    ensures hi <= |h(k).callers| && OutExcept(h(k).callers, lo, hi)
    decreases k
  {
    hide Init, Next, OutExcept;
    if j == k {
    } else {
      EndlessStaysOut(h, w, j, k - 1, lo, hi);
      ClosedForGood(h, w, j, k - 1);
      assert Follows(h, w, k - 1);
      StepStaysOut(h(k - 1), w(k - 1), h(k), lo, hi);
      OnlyOwnSteps(h(k - 1), w(k - 1), h(k));
    }
  }

  // The calls in flight when the state became Closed leave one after another.
  lemma {:induction false} CallersLeaveBegin(h: History, w: Schedule, n: nat, hi: nat, lo: nat) returns (m: nat)
    requires Fair(h, w) && IsClosed(h(n).core) && hi == |h(n).callers| && lo <= hi
    ensures n <= m && hi <= |h(m).callers| && OutExcept(h(m).callers, lo, hi)
    decreases lo
  {
    hide Init, Next, Ready, Performs, Weakly, AbortsHonoured, Follows, OutOfBegin;
    if lo == 0 {
      return n;
    }
    var k := CallersLeaveBegin(h, w, n, hi, lo - 1);
    var i := lo - 1;
    var rank := (s: State) => BeginRank(s, i);
    forall j: nat | k <= j ensures Lowers(h, w, TheCaller(i), rank, FAR, j) {
      EndlessStep(h, w, j);
      BeginDescends(h(j), i, w(j), h(j + 1));
    }
    BeginIsNear(h(k), i);
    m := Progress(h, w, TheCaller(i), rank, FAR, k);
    ClosedForGood(h, w, n, k);
    EndlessStaysOut(h, w, k, m, lo - 1, hi);
    ZeroIsOut(h(m).callers[i]);
  }

  lemma BeginIsNear(s: State, i: nat)
    ensures BeginRank(s, i) < FAR
  {
  }

  lemma ZeroIsOut(p: Caller)
    ensures BeginDistance(p) == 0 ==> OutOfBegin(p)
  {
  }

  // ----- nothing is left -----

  // Reader, writer and watchdog are gone and nobody will start another.
  ghost predicate Spent(s: State) {
    IsClosed(s.core) && s.reader.RDone? && s.writer.WDone? && AllDone(s.dogs) && OutExcept(s.callers, 0, 0)
  }

  lemma SpentCountsZero(s: State)
    requires Sound(s) && Spent(s)
    ensures s.core.tasks.value == 0
  {
    hide Asserted, OneWatchdog, Timed, Outflow.Conserved, SendOrder.Ordered, SendOrder.WireTimed, Inflow.Delivering;
    hide Owed, Settled;
    SumIsPositive(LiveDog, s.dogs);
    SumIsPositive(GuardOf, s.callers);
    forall i | 0 <= i < |s.callers| ensures GuardOf(s.callers[i]) == 0 {
      assert OutOfBegin(s.callers[i]);
    }
  }

  lemma StepStaysSpent(s: State, a: Option<Action>, s': State)
    requires Spent(s) && StepOrStay(s, a, s')
    ensures Spent(s')
  {
    hide CloseStep, BeginCloseStep, AborterStep, AdmitStep, SendStep, ClaimStep, ReceiveStep, Quiet;
    hide ReaderStep, WriterStep, DogStep, CallerEffect, ControlEdge, Controls, OutOfBegin;
    StepStaysOut(s, a, s', 0, 0);
    if a.Some? {
      match a.value {
        case ReaderActs(ev) => ReaderSummarized(s, ev, s');
        case WriterActs(ev) => WriterSummarized(s, ev, s');
        case DogActs(k, ev) => DogSummarized(s, k, ev, s');
        case CallerActs(i, ev) =>
          CallerSummarized(s, i, ev, s');
          OutDoesNotSpawn(s.core, s.callers[i]);
        case _ =>
      }
    }
  }

  lemma OutDoesNotSpawn(c: Core, p: Caller)
    requires IsClosed(c) && OutOfBegin(p)
    ensures !p.CSpawn? && IsClosed(CallerEffect(c, p))
  {
  }

  lemma {:induction false} EndlessStaysSpent(h: History, w: Schedule, j: nat, k: nat)
    requires Endless(h, w) && j <= k && Spent(h(j))
    ensures Spent(h(k))
    decreases k
  {
    hide Init, Next, Spent;
    if j == k {
    } else {
      EndlessStaysSpent(h, w, j, k - 1);
      assert Follows(h, w, k - 1);
      StepStaysSpent(h(k - 1), w(k - 1), h(k));
    }
  }

  // Ended tasks do not come back, and without spawners no dog is added.
  ghost predicate Ending(s: State) {
    IsClosed(s.core) && s.reader.RDone? && s.writer.WDone? && OutExcept(s.callers, 0, 0)
  }

  lemma StepStaysEnding(s: State, a: Option<Action>, s': State)
    requires IsClosed(s.core) && StepOrStay(s, a, s')
    ensures s.reader.RDone? ==> s'.reader.RDone?
    ensures s.writer.WDone? ==> s'.writer.WDone?
    ensures OutExcept(s.callers, 0, 0) ==> |s'.dogs| == |s.dogs|
  {
    hide CloseStep, BeginCloseStep, AborterStep, AdmitStep, SendStep, ClaimStep, ReceiveStep, Quiet;
    hide ReaderStep, WriterStep, DogStep, CallerEffect, ControlEdge, Controls, OutOfBegin, DogEdge, DogEffect;
    hide ReaderEffect, WriterEffect;
    if a.Some? {
      match a.value {
        case ReaderActs(ev) => ReaderSummarized(s, ev, s');
        case WriterActs(ev) => WriterSummarized(s, ev, s');
        case DogActs(k, ev) => DogSummarized(s, k, ev, s');
        case CallerActs(i, ev) =>
          CallerSummarized(s, i, ev, s');
          if OutExcept(s.callers, 0, 0) {
            OutDoesNotSpawn(s.core, s.callers[i]);
          }
        case _ =>
      }
    }
  }

  lemma {:induction false} EndlessStaysEnding(h: History, w: Schedule, j: nat, k: nat)
    requires Endless(h, w) && j <= k && IsClosed(h(j).core)
    ensures IsClosed(h(k).core)
    ensures h(j).reader.RDone? ==> h(k).reader.RDone?
    ensures h(j).writer.WDone? ==> h(k).writer.WDone?
    ensures OutExcept(h(j).callers, 0, 0) ==> OutExcept(h(k).callers, 0, 0) && |h(k).dogs| == |h(j).dogs|
    decreases k
  {
    hide Init, Next, OutExcept;
    if j == k {
    } else {
      EndlessStaysEnding(h, w, j, k - 1);
      ClosedForGood(h, w, j, k);
      assert Follows(h, w, k - 1);
      StepStaysEnding(h(k - 1), w(k - 1), h(k));
      if OutExcept(h(j).callers, 0, 0) {
        StepStaysOut(h(k - 1), w(k - 1), h(k), 0, 0);
      }
    }
  }

  lemma WatchdogEnds(h: History, w: Schedule, n: nat) returns (m: nat)
    requires Fair(h, w) && Ending(h(n))
    ensures n <= m && Spent(h(m))
  {
    hide Sound, Init, Next, Ready, Performs, Weakly, AbortsHonoured, Follows, OutExcept;
    EndlessIsSound(h, w, n);
    OneDog(h(n));
    if |h(n).dogs| == 0 {
      return n;
    }
    var rank := (s: State) => DogRank(s, 0);
    forall j: nat | n <= j ensures Lowers(h, w, TheDog(0), rank, FAR, j) {
      EndlessStep(h, w, j);
      ClosedForGood(h, w, n, j);
      DogDescends(h(j), 0, w(j), h(j + 1));
    }
    m := Progress(h, w, TheDog(0), rank, FAR, n);
    EndlessStaysEnding(h, w, n, m);
  }

  lemma OneDog(s: State)
    requires Sound(s)
    ensures |s.dogs| <= 1
  {
  }

  // From every Closed state of a fair run the reader, the writer and the
  // watchdog come to their end, the counter comes down to zero, and both stay
  // so for ever, whatever calls are made afterwards.
  lemma ClosedDrainsToNothing(h: History, w: Schedule, n: nat) returns (m: nat)
    requires Fair(h, w) && IsClosed(h(n).core)
    ensures n <= m && forall k: nat :: m <= k ==> Spent(h(k)) && h(k).core.tasks.value == 0
  {
    hide Sound, Init, Next, Ready, Performs, Weakly, AbortsHonoured, Follows, OutExcept, Spent;
    var r := ReaderEnds(h, w, n);
    ClosedForGood(h, w, n, r);
    var v := WriterEnds(h, w, r);
    ClosedForGood(h, w, r, v);
    EndlessStaysEnding(h, w, r, v);
    var c := CallersLeaveBegin(h, w, v, |h(v).callers|, |h(v).callers|);
    EndlessStaysEnding(h, w, v, c);
    NobodyExcepted(h(c).callers, |h(v).callers|);
    m := WatchdogEnds(h, w, c);
    forall k: nat | m <= k ensures Spent(h(k)) && h(k).core.tasks.value == 0 {
      EndlessStaysSpent(h, w, m, k);
      EndlessIsSound(h, w, k);
      SpentCountsZero(h(k));
    }
  }

  lemma NobodyExcepted(callers: seq<Caller>, n: nat)
    requires OutExcept(callers, n, n)
    ensures OutExcept(callers, 0, 0)
  {
  }

  // ----- close() returns -----

  ghost predicate InClose(p: Caller) {
    BeginDistance(p) > 0 || p.CCheck? || p.CPark? || p.CTasks? || p.CTasksPark? || p.CloseDone? || p.CloseCancelled?
  }

  // Past begin_close: waiting for the end, or finished.
  ghost predicate AwaitsEnd(p: Caller) { EndDistance(p) < FAR }

  lemma CloseGoesOn(c: Core, p: Caller, p': Caller)
    requires if Controls(p) then ControlEdge(c, p, p') else !Controls(p')
    ensures InClose(p) ==> InClose(p')
    ensures AwaitsEnd(p) ==> AwaitsEnd(p')
  {
  }

  lemma {:induction false} CloseStaysClose(h: History, w: Schedule, j: nat, k: nat, i: nat)
    requires Endless(h, w) && j <= k && i < |h(j).callers|
    ensures i < |h(k).callers|
    ensures InClose(h(j).callers[i]) ==> InClose(h(k).callers[i])
    ensures AwaitsEnd(h(j).callers[i]) ==> AwaitsEnd(h(k).callers[i])
    decreases k
  {
    hide Init, Next, InClose, AwaitsEnd, ControlEdge, Controls, CallerEffect;
    if j == k {
    } else {
      CloseStaysClose(h, w, j, k - 1, i);
      assert Follows(h, w, k - 1);
      OnlyOwnSteps(h(k - 1), w(k - 1), h(k));
      if Performs(w(k - 1), TheCaller(i)) {
        CallerSummarized(h(k - 1), i, w(k - 1).value.ce, h(k));
        CloseGoesOn(h(k - 1).core, h(k - 1).callers[i], h(k).callers[i]);
      }
    }
  }

  // A call that waits has set `closing`, so the state is Closed in time.
  lemma WaitEndsInTime(h: History, w: Schedule, n: nat, i: nat) returns (m: nat)
    requires Fair(h, w) && TimePasses(h) && i < |h(n).callers| && AwaitsEnd(h(n).callers[i])
    ensures n <= m && (IsClosed(h(m).core) || h(n).callers[i].CloseCancelled?)
  {
    hide Init, Next, Sound, Ready, Performs, Weakly, AbortsHonoured, Follows, AwaitsEnd;
    EndlessIsSound(h, w, n);
    SoundIsTimed(h(n));
    WaitersHaveBegun(h(n), i);
    m := n;
    if !IsClosed(h(n).core) && !h(n).callers[i].CloseCancelled? {
      var late := h(n).core.since.value + h(n).cfg.closeTimeout + 1;
      assert Reaches(h, late);
      m :| late <= h(m).core.now;
      if m < n {
        EndlessOnward(h, w, m, n);
        m := n;
      }
      EndlessOnward(h, w, n, m);
      ConfigStays(h, w, n, m);
      EndlessIsSound(h, w, m);
      SoundIsTimed(h(m));
    }
  }

  lemma WaitersHaveBegun(s: State, i: nat)
    requires Sound(s) && i < |s.callers| && AwaitsEnd(s.callers[i])
    ensures s.core.closing || IsClosed(s.core) || s.callers[i].CloseCancelled?
  {
    hide CoreOk, ReaderOk, WriterOk, DogsOk, RepliesOk, InboundOk, OutboundOk, Counted, OneWatchdog, Timed;
    hide Outflow.Conserved, SendOrder.Ordered, SendOrder.WireTimed, Inflow.Delivering, Owed, Settled;
    assert CallerOk(s.core, s.callers[i]);
  }

  // Every close() returns, or is cancelled by its caller.
  lemma CloseReturnsEventually(h: History, w: Schedule, n: nat, i: nat) returns (m: nat)
    requires Fair(h, w) && TimePasses(h) && i < |h(n).callers| && InClose(h(n).callers[i])
    ensures n <= m && i < |h(m).callers| && (h(m).callers[i].CloseDone? || h(m).callers[i].CloseCancelled?)
  {
    hide Init, Next, Sound, Ready, Performs, Weakly, AbortsHonoured, Follows, InClose, AwaitsEnd, Spent;
    var begin := (s: State) => BeginRank(s, i);
    forall j: nat | n <= j ensures Lowers(h, w, TheCaller(i), begin, FAR, j) {
      EndlessStep(h, w, j);
      BeginDescends(h(j), i, w(j), h(j + 1));
    }
    BeginIsNear(h(n), i);
    var b := Progress(h, w, TheCaller(i), begin, FAR, n);
    CloseStaysClose(h, w, n, b, i);
    ThroughBegin(h(b).callers[i]);
    var c := WaitEndsInTime(h, w, b, i);
    if h(b).callers[i].CloseCancelled? {
      return b;
    }
    var d := ClosedDrainsToNothing(h, w, c);
    CloseStaysClose(h, w, b, d, i);
    var end := (s: State) => EndRank(s, i);
    forall j: nat | d <= j ensures Lowers(h, w, TheCaller(i), end, FAR, j) {
      EndlessStep(h, w, j);
      ClosedForGood(h, w, c, j);
      EndDescends(h(j), i, w(j), h(j + 1));
    }
    WaitingIsNear(h(d).callers[i]);
    m := Progress(h, w, TheCaller(i), end, FAR, d);
    OnlyFinishedAreZero(h(m), i);
  }

  lemma ThroughBegin(p: Caller)
    requires InClose(p) && BeginDistance(p) == 0
    ensures AwaitsEnd(p)
  {
  }

  lemma WaitingIsNear(p: Caller)
    requires AwaitsEnd(p)
    ensures EndDistance(p) < FAR
  {
  }

  lemma OnlyFinishedAreZero(s: State, i: nat)
    requires EndRank(s, i) == 0
    ensures i < |s.callers| && (s.callers[i].CloseDone? || s.callers[i].CloseCancelled?)
  {
  }

  // ----- receive() returns -----

  function ReceiveRank(s: State, i: nat): nat { if i < |s.callers| then ReceiveDistance(s.callers[i]) else FAR }

  function ReceiveDistance(p: Caller): nat {
    match p
    case VClaim => 8
    case VLock => 7
    case VRecv => 6
    case VTerminal => 5
    case VRelease(_) => 5
    case VUnlock(_) => 4
    case VUnclaim(_) => 3
    case ReceiveDone(_) => 0
    case _ => FAR
  }

  lemma ReceiveFalls(s: State, i: nat, ev: CallEvent, s': State)
    requires Next(s, CallerActs(i, ev), s') && i < |s.callers| && Receives(s.callers[i])
    ensures i < |s'.callers| && ReceiveDistance(s'.callers[i]) < ReceiveDistance(s.callers[i])
  {
    hide CloseStep, BeginCloseStep, AborterStep, AdmitStep, SendStep, ClaimStep, ReceiveStep;
    hide CallerEffect, ControlEdge, Controls, Receives, ReceiveDistance;
    Inflow.OtherCallsLeaveInbound(s, i, ev, s');
    Inflow.ReceiverWorksLane(s, i, ev, s');
    ReceiverFalls(s.callers[i], s.inq, s.log, s'.callers[i], s'.inq, s'.log);
  }

  lemma ReceiverFalls(p: Caller, n: Inbound, l: Log, p': Caller, n': Inbound, l': Log)
    requires Inflow.ReceiverLane(p, n, l, p', n', l')
    ensures ReceiveDistance(p') < ReceiveDistance(p)
  {
    match p {
      case VClaim => case VLock => case VRecv => case VTerminal => case VRelease(_) => case VUnlock(_) => case _ =>
    }
  }

  lemma ReceiversAreReady(s: State, i: nat)
    requires Sound(s) && s.inq.closed && 0 < ReceiveRank(s, i) < FAR
    ensures Ready(s, TheCaller(i)) && Receives(s.callers[i])
  {
    hide Asserted, Counted, OneWatchdog, Timed, Outflow.Conserved, SendOrder.Ordered, SendOrder.WireTimed, Owed;
    hide Settled;
    hide Inflow.Delivering;
    if s.callers[i].VLock? {
      Inflow.OneReceiverAtATime(s, i, i);
    }
  }

  lemma ReceiveDescends(s: State, i: nat, a: Option<Action>, s': State)
    requires Sound(s) && s.inq.closed && StepOrStay(s, a, s')
    ensures Falls(FAR, ReceiveRank(s, i), Ready(s, TheCaller(i)), ReceiveRank(s', i), Performs(a, TheCaller(i)))
  {
    hide Sound, Next, ReceiveDistance, Receives, CallerReady;
    if 0 < ReceiveRank(s, i) < FAR {
      ReceiversAreReady(s, i);
      OnlyOwnSteps(s, a, s');
      if Performs(a, TheCaller(i)) {
        ReceiveFalls(s, i, a.value.ce, s');
      }
    }
  }

  // Once the connection is Closed, no receive() waits for ever.
  lemma ReceiveReturnsEventually(h: History, w: Schedule, n: nat, i: nat) returns (m: nat)
    requires Fair(h, w) && IsClosed(h(n).core) && i < |h(n).callers| && Receives(h(n).callers[i])
    ensures n <= m && i < |h(m).callers| && h(m).callers[i].ReceiveDone?
  {
    hide Init, Next, Sound, Ready, Performs, Weakly, AbortsHonoured, Follows, Receives;
    var d := ReaderEnds(h, w, n);
    ReceiveStaysReceive(h, w, n, d, i);
    ClosedForGood(h, w, n, d);
    var rank := (s: State) => ReceiveRank(s, i);
    forall j: nat | d <= j ensures Lowers(h, w, TheCaller(i), rank, FAR, j) {
      EndlessStep(h, w, j);
      EndlessStaysEnding(h, w, d, j);
      DoneReaderClosesLane(h(j));
      ReceiveDescends(h(j), i, w(j), h(j + 1));
    }
    ReceivesAreNear(h(d).callers[i]);
    m := Progress(h, w, TheCaller(i), rank, FAR, d);
    OnlyReceivedIsZero(h(m), i);
  }

  lemma DoneReaderClosesLane(s: State)
    requires Sound(s) && s.reader.RDone?
    ensures s.inq.closed
  {
  }

  lemma {:induction false} ReceiveStaysReceive(h: History, w: Schedule, j: nat, k: nat, i: nat)
    requires Endless(h, w) && j <= k && i < |h(j).callers| && Receives(h(j).callers[i])
    ensures i < |h(k).callers| && Receives(h(k).callers[i])
    decreases k
  {
    hide Init, Next, Receives;
    if j == k {
    } else {
      ReceiveStaysReceive(h, w, j, k - 1, i);
      assert Follows(h, w, k - 1);
      OnlyOwnSteps(h(k - 1), w(k - 1), h(k));
      if Performs(w(k - 1), TheCaller(i)) {
        ReceiverRemains(h(k - 1), i, w(k - 1).value.ce, h(k));
      }
    }
  }

  lemma ReceiverRemains(s: State, i: nat, ev: CallEvent, s': State)
    requires Next(s, CallerActs(i, ev), s') && i < |s.callers| && Receives(s.callers[i])
    ensures i < |s'.callers| && Receives(s'.callers[i])
  {
    hide CloseStep, BeginCloseStep, AborterStep, AdmitStep, SendStep, ClaimStep, ReceiveStep, Receives;
    Inflow.OtherCallsLeaveInbound(s, i, ev, s');
    Outflow.ReceiveStaysReceive(s, i, ev, s');
  }

  lemma ReceivesAreNear(p: Caller)
    requires Receives(p)
    ensures ReceiveDistance(p) < FAR
  {
  }

  lemma OnlyReceivedIsZero(s: State, i: nat)
    requires ReceiveRank(s, i) == 0
    ensures i < |s.callers| && s.callers[i].ReceiveDone?
  {
  }

  // ----- accepted sends return -----

  // The writer has drained its queue for the last time.
  ghost predicate PastDrain(p: Writer) { p.WDropTransport? || p.WDropGuard? || p.WDone? }

  // It leaves the drain with nothing pending, so every queued send has its
  // reply.
  lemma DrainedMeansAnswered(s: State, a: Option<Action>, s': State)
    requires Sound(s) && StepOrStay(s, a, s') && !PastDrain(s.writer) && PastDrain(s'.writer)
    ensures forall id :: id in s.log.queued ==> id in s'.outq.replies
  {
    hide Asserted, Counted, OneWatchdog, Timed, Outflow.Conserved;
    hide SendOrder.WireTimed, Inflow.Delivering, Owed, Settled;
    hide Next, SendOrder.CallsMatch;
    OnlyOwnSteps(s, a, s');
    SeenStaysSeen(s, a.value, s');
    LeavesDrainEmpty(s, a.value.we, s');
    assert SendOrder.Pending(s) == [];
  }

  lemma LeavesDrainEmpty(s: State, ev: WriterEvent, s': State)
    requires Next(s, WriterActs(ev), s') && !PastDrain(s.writer) && PastDrain(s'.writer)
    ensures s.writer.WDrain? && s.outq.queue == []
  {
    hide WriterStep, WriterEffect, Answered;
    WriterSummarized(s, ev, s');
    if s.writer.WDrain? {
      WriterDrainsOn(s, ev, s');
    }
  }

  lemma {:induction false} LastDrain(h: History, w: Schedule, n: nat, m: nat) returns (k: nat)
    requires n <= m && !PastDrain(h(n).writer) && PastDrain(h(m).writer)
    ensures n <= k < m && !PastDrain(h(k).writer) && PastDrain(h(k + 1).writer)
    decreases m
  {
    if !PastDrain(h(m - 1).writer) {
      k := m - 1;
    } else {
      k := LastDrain(h, w, n, m - 1);
    }
  }

  lemma StepKeepsQueued(s: State, a: Option<Action>, s': State)
    requires StepOrStay(s, a, s')
    ensures forall id :: id in s.log.queued ==> id in s'.log.queued
    ensures forall id :: id in s.outq.replies ==> id in s'.outq.replies
  {
    hide Next;
    if a.Some? {
      Traffic.StepGrowsLog(s, a.value, s');
      SeenStaysSeen(s, a.value, s');
    }
  }

  lemma {:induction false} QueuedStays(h: History, w: Schedule, j: nat, k: nat, id: nat)
    requires Endless(h, w) && j <= k
    ensures id in h(j).log.queued ==> id in h(k).log.queued
    ensures id in h(j).outq.replies ==> id in h(k).outq.replies
    decreases k
  {
    hide Init, Next;
    if j == k {
    } else {
      QueuedStays(h, w, j, k - 1, id);
      assert Follows(h, w, k - 1);
      StepKeepsQueued(h(k - 1), w(k - 1), h(k));
    }
  }

  // Once the state is Closed, every send that was queued before the writer left
  // its drain has its reply in the end.
  lemma QueuedSendIsAnswered(h: History, w: Schedule, n: nat, id: nat) returns (m: nat)
    requires Fair(h, w) && IsClosed(h(n).core) && id in h(n).log.queued && !PastDrain(h(n).writer)
    ensures n <= m && id in h(m).outq.replies
  {
    hide Init, Next, Sound, Ready, Performs, Weakly, AbortsHonoured, Follows;
    var d := WriterEnds(h, w, n);
    var k := LastDrain(h, w, n, d);
    QueuedStays(h, w, n, k, id);
    EndlessStep(h, w, k);
    DrainedMeansAnswered(h(k), w(k), h(k + 1));
    m := k + 1;
  }

  function SendRank(s: State, i: nat): nat {
    if i >= |s.callers| then FAR
    else match s.callers[i] case SWaiting => 2 case SLost => 1 case SendDone(_) => 0 case _ => FAR
  }

  lemma SenderReports(s: State, i: nat, ev: CallEvent, s': State)
    requires Next(s, CallerActs(i, ev), s') && i < |s.callers| && (s.callers[i].SWaiting? || s.callers[i].SLost?)
    ensures SendRank(s', i) < SendRank(s, i)
  {
  }

  lemma SendDescends(s: State, i: nat, a: Option<Action>, s': State)
    requires StepOrStay(s, a, s') && i in s.outq.replies
    ensures Falls(FAR, SendRank(s, i), Ready(s, TheCaller(i)), SendRank(s', i), Performs(a, TheCaller(i)))
  {
    hide Next;
    if 0 < SendRank(s, i) < FAR {
      OnlyOwnSteps(s, a, s');
      if Performs(a, TheCaller(i)) {
        SenderReports(s, i, a.value.ce, s');
      }
    }
  }

  // So a send() that waits for such a reply returns.
  lemma SendReturnsEventually(h: History, w: Schedule, n: nat, i: nat) returns (m: nat)
    requires Fair(h, w) && IsClosed(h(n).core) && !PastDrain(h(n).writer)
    requires i < |h(n).callers| && h(n).callers[i].SWaiting?
    ensures n <= m && i < |h(m).callers| && h(m).callers[i].SendDone?
  {
    hide Init, Next, Sound, Ready, Performs, Weakly, AbortsHonoured, Follows;
    EndlessIsSound(h, w, n);
    WaitingSendIsQueued(h(n), i);
    var k := QueuedSendIsAnswered(h, w, n, i);
    var rank := (s: State) => SendRank(s, i);
    // Up to then the call stays where it is, or is cancelled.
    SenderStays(h, w, n, k, i);
    forall j: nat | k <= j ensures Lowers(h, w, TheCaller(i), rank, FAR, j) {
      EndlessStep(h, w, j);
      QueuedStays(h, w, k, j, i);
      SendDescends(h(j), i, w(j), h(j + 1));
    }
    m := Progress(h, w, TheCaller(i), rank, FAR, k);
    OnlySentIsZero(h(m), i);
  }

  lemma WaitingSendIsQueued(s: State, i: nat)
    requires Sound(s) && i < |s.callers| && s.callers[i].SWaiting?
    ensures i in s.log.queued
  {
    hide Asserted, Counted, OneWatchdog, Timed, Outflow.Conserved;
    hide SendOrder.WireTimed, Inflow.Delivering, Owed, Settled;
    hide SendOrder.FlowOk;
  }

  lemma {:induction false} SenderStays(h: History, w: Schedule, n: nat, k: nat, i: nat)
    requires Endless(h, w) && n <= k && SendRank(h(n), i) < FAR
    ensures SendRank(h(k), i) < FAR
    decreases k
  {
    hide Init, Next;
    if n == k {
    } else {
      SenderStays(h, w, n, k - 1, i);
      assert Follows(h, w, k - 1);
      OnlyOwnSteps(h(k - 1), w(k - 1), h(k));
      if Performs(w(k - 1), TheCaller(i)) {
        CallerSummarized(h(k - 1), i, w(k - 1).value.ce, h(k));
        SenderReports(h(k - 1), i, w(k - 1).value.ce, h(k));
      }
    }
  }

  lemma OnlySentIsZero(s: State, i: nat)
    requires SendRank(s, i) == 0
    ensures i < |s.callers| && s.callers[i].SendDone?
  {
  }
}
