// Fair schedules exist: every finite run can be continued to a fair endless one,
// so that nothing in modules Liveness, Handshake and Delivery holds for want of
// a schedule. The continuation takes the tasks and the calls in turn.
module Schedules {
  import opened Errors
  import opened Machine
  import opened Effects
  import opened Assertions
  import opened Runs
  import opened Fairness
  import opened Enabled
  import opened Liveness

  // ----- turns -----

  // Reader, writer, the one watchdog there can be, and the calls.
  function Turns(s: State): nat { |s.callers| + 3 }

  function TurnOf(t: nat): Actor {
    if t == 0 then TheReader else if t == 1 then TheWriter else if t == 2 then TheDog(0) else TheCaller(t - 3)
  }

  function TurnAt(size: nat, n: nat): (t: nat)
    requires size > 0
    ensures t < size
  {
    if n == 0 then 0
    else
      var before := TurnAt(size, n - 1);
      if before + 1 < size then before + 1 else 0
  }

  function Turn(size: nat, n: nat): Actor
    requires size > 0
  {
    TurnOf(TurnAt(size, n))
  }

  // Everybody's turn comes again.
  lemma {:induction false} TurnComes(size: nat, t: nat, n: nat) returns (m: nat)
    requires t < size
    ensures n <= m && TurnAt(size, m) == t
    decreases if TurnAt(size, n) <= t then t - TurnAt(size, n) else size + size - TurnAt(size, n)
  {
    if TurnAt(size, n) == t {
      m := n;
    } else {
      m := TurnComes(size, t, n + 1);
    }
  }

  // ----- one move -----

  ghost predicate AbortDue(s: State, x: Actor) {
    || (x.TheReader? && s.core.readerAbort && ReaderParked(s.reader))
    || (x.TheWriter? && s.core.writerAbort && WriterParked(s.writer))
  }

  function AbortOf(x: Actor): Action { if x.TheReader? then ReaderActs(RAborted) else WriterActs(WAborted) }

  function Unwound(s: State, x: Actor): State { if x.TheReader? then ReaderUnwinds(s) else WriterUnwinds(s) }

  lemma AbortCanStrike(s: State, x: Actor)
    requires AbortDue(s, x)
    ensures Next(s, AbortOf(x), Unwound(s, x)) && Performs(Some(AbortOf(x)), x)
  {
  }

  lemma SomeStep(s: State, x: Actor)
    requires Sound(s) && Ready(s, x)
    ensures exists a, s' :: Next(s, a, s') && Performs(Some(a), x)
  {
    hide Sound, Ready, Next, Performs;
    var a, s' := ReadyCanStep(s, x);
  }

  // At its turn an actor honours an abort, or goes on if it can.
  ghost function Move(s: State, x: Actor): (r: (Option<Action>, State))
    requires Sound(s)
  {
    if AbortDue(s, x) then (Some(AbortOf(x)), Unwound(s, x))
    else if Ready(s, x) then
      SomeStep(s, x);
      var a, s' :| Next(s, a, s') && Performs(Some(a), x);
      (Some(a), s')
    else (None, s)
  }

  lemma MoveIsAStep(s: State, x: Actor)
    requires Sound(s)
    ensures var (a, s') := Move(s, x);
            && StepOrStay(s, a, s') && Sound(s') && (a.Some? ==> Performs(a, x))
            && (AbortDue(s, x) ==> a == Some(AbortOf(x)))
            && (Ready(s, x) ==> Performs(a, x))
            && |s'.callers| == |s.callers|
  {
    hide Sound, Ready, Next, Performs;
    var (a, s') := Move(s, x);
    if AbortDue(s, x) {
      AbortCanStrike(s, x);
    }
    if a.Some? {
      StepIsSound(s, a.value, s');
      NoNewCalls(s, a.value, s', x);
    }
  }

  lemma NoNewCalls(s: State, a: Action, s': State, x: Actor)
    requires Next(s, a, s') && Performs(Some(a), x)
    ensures |s'.callers| == |s.callers|
  {
    hide CloseStep, BeginCloseStep, AborterStep, AdmitStep, SendStep, ClaimStep, ReceiveStep;
    hide ReaderStep, WriterStep, DogStep, ReaderEdge, WriterEdge, DogEdge, ControlEdge, Controls;
    hide ReaderEffect, WriterEffect, DogEffect, CallerEffect, Answered;
    match a {
      case ReaderActs(ev) => ReaderSummarized(s, ev, s');
      case WriterActs(ev) => WriterSummarized(s, ev, s');
      case DogActs(k, ev) => DogSummarized(s, k, ev, s');
      case CallerActs(i, ev) => CallerSummarized(s, i, ev, s');
      case _ =>
    }
  }

  // ----- the endless continuation -----

  ghost function After(s: State, n: nat): (t: State)
    requires Sound(s)
    ensures Sound(t) && |t.callers| == |s.callers|
  {
    if n == 0 then s
    else
      var before := After(s, n - 1);
      MoveIsAStep(before, Turn(Turns(s), n - 1));
      Move(before, Turn(Turns(s), n - 1)).1
  }

  // From a moment on the actors take turns.
  ghost predicate TakesTurns(h: History, w: Schedule, from: nat, size: nat, n: nat)
    requires size > 0
  {
    from <= n ==> Sound(h(n)) && |h(n).callers| + 3 == size && (w(n), h(n + 1)) == Move(h(n), Turn(size, n - from))
  }

  ghost predicate InTurns(h: History, w: Schedule, from: nat, size: nat) {
    Endless(h, w) && size > 0 && forall n: nat :: TakesTurns(h, w, from, size, n)
  }

  // ----- the ready are served -----

  lemma {:induction false} ReadyUntilServed(h: History, w: Schedule, x: Actor, n: nat, m: nat)
    requires Endless(h, w) && n <= m && Ready(h(n), x)
    ensures Ready(h(m), x) || WillMove(w, x, n)
    decreases m
  {
    hide Init, Next, Ready, Performs, Sound;
    if n == m {
    } else {
      ReadyUntilServed(h, w, x, n, m - 1);
      EndlessStep(h, w, m - 1);
      if Ready(h(m - 1), x) && !Performs(w(m - 1), x) && w(m - 1).Some? {
        ReadyStaysReady(h(m - 1), w(m - 1).value, h(m), x);
      }
    }
  }

  // Everybody who can be ready has a turn.
  lemma ReadyHasTurn(s: State, x: Actor) returns (t: nat)
    requires Sound(s) && Ready(s, x)
    ensures t < Turns(s) && TurnOf(t) == x
  {
    hide Sound, ReaderReady, WriterReady, DogReady, CallerReady;
    OneDog(s);
    t := match x case TheReader => 0 case TheWriter => 1 case TheDog(_) => 2 case TheCaller(i) => 3 + i;
  }

  lemma TurnsAreWeaklyFair(h: History, w: Schedule, from: nat, size: nat, x: Actor, n: nat)
    requires InTurns(h, w, from, size)
    ensures Weakly(h, w, x, n)
  {
    hide Init, Next, Ready, Performs, Sound, Move, Follows;
    if Ready(h(n), x) {
      var k := if n < from then from else n;
      ReadyUntilServed(h, w, x, n, k);
      if Ready(h(k), x) {
        assert TakesTurns(h, w, from, size, k);
        var t := ReadyHasTurn(h(k), x);
        var m := TurnComes(size, t, k - from);
        m := m + from;
        ReadyUntilServed(h, w, x, n, m);
        assert TakesTurns(h, w, from, size, m);
        MoveIsAStep(h(m), Turn(size, m - from));
      }
    }
  }

  // ----- aborts are honoured -----

  // Steps to the next await, or to the end.
  function ReaderToAwait(s: State): nat {
    match s.reader
    case RTop => 1
    case RRecheck => 2
    case RFlushRequest => 2
    case RGate(_) => 30
    case RLoadClosing(_) => 21
    case RStoreClosing(_, _) => 20
    case RJudge(_, _) => 20
    case RPublishPeer(_) => 19
    case RSignalPeer(_) => 18
    case RArm(_) => 17
    case RWaitCheck(_, _, _) => 16
    case RLateTerminal(_) => 15
    case RLateAbort => 14
    case RPublishFailure(_) => 19
    case RSignalFailure => 18
    case RAbortWriter => 17
    case _ => 0
  }

  function WriterToAwait(s: State): nat {
    match s.writer
    case WPollQueues => 20
    case WReplyOk(_) => 3
    case WReleaseOk(_) => 2
    case WReadSignal => 11
    case WHandshake => 5
    case WHandshakeEnd => 4
    case WReadPeer => 3
    case WPublishPeer(_) => 2
    case WFail(_, _) => 9
    case WFailSignal(_, _) => 8
    case WReplyErr(_, _) => 7
    case _ => 0
  }

  const SOON := 50

  lemma ReaderEdgeNears(s: State, s': State)
    requires ReaderEdge(s.cfg.closeTimeout, s.core, s.reader, s'.reader) && ReaderToAwait(s) > 0
    ensures ReaderToAwait(s') < ReaderToAwait(s)
  {
    match s.reader {
      case RTop => case RRecheck => case RFlushRequest => case RGate(_) => case RLoadClosing(_) =>
      case RStoreClosing(_, _) =>
      case RJudge(_, _) => case RPublishPeer(_) => case RSignalPeer(_) => case RArm(_) => case RWaitCheck(_, _, _) =>
      case RLateTerminal(_) => case RLateAbort => case RPublishFailure(_) => case RSignalFailure => case _ =>
    }
  }

  lemma WriterEdgeNears(s: State, s': State)
    requires WriterEdge(s.core, s.writer, s'.writer) && WriterToAwait(s) > 0
    ensures WriterToAwait(s') < WriterToAwait(s)
  {
    match s.writer {
      case WPollQueues => case WReplyOk(_) => case WReleaseOk(_) => case WReadSignal => case WHandshake =>
      case WHandshakeEnd => case WReadPeer => case WPublishPeer(_) => case WFail(_, _) =>
      case WFailSignal(_, _) => case _ =>
    }
  }

  lemma ReaderNearsAwait(s: State, a: Option<Action>, s': State)
    requires StepOrStay(s, a, s')
    ensures Falls(SOON, ReaderToAwait(s), Ready(s, TheReader), ReaderToAwait(s'), Performs(a, TheReader))
  {
    hide Next, ReaderEdge, ReaderEffect;
    OnlyOwnSteps(s, a, s');
    if Performs(a, TheReader) && ReaderToAwait(s) > 0 {
      ReaderMakesStep(s, a.value.re, s');
      ReaderEdgeNears(s, s');
    }
  }

  lemma ReaderMakesStep(s: State, ev: ReaderEvent, s': State)
    requires Next(s, ReaderActs(ev), s')
    ensures ReaderEdge(s.cfg.closeTimeout, s.core, s.reader, s'.reader)
  {
    hide ReaderStep, ReaderEdge, ReaderEffect;
    ReaderSummarized(s, ev, s');
  }

  lemma WriterNearsAwait(s: State, a: Option<Action>, s': State)
    requires StepOrStay(s, a, s')
    ensures Falls(SOON, WriterToAwait(s), Ready(s, TheWriter), WriterToAwait(s'), Performs(a, TheWriter))
  {
    hide Next, WriterEdge, WriterEffect;
    OnlyOwnSteps(s, a, s');
    if Performs(a, TheWriter) && WriterToAwait(s) > 0 {
      WriterMakesStep(s, a.value.we, s');
      WriterEdgeNears(s, s');
    }
  }

  lemma WriterMakesStep(s: State, ev: WriterEvent, s': State)
    requires Next(s, WriterActs(ev), s')
    ensures WriterEdge(s.core, s.writer, s'.writer)
  {
    hide WriterStep, WriterEdge, WriterEffect, Answered;
    WriterSummarized(s, ev, s');
  }

  // A due abort stays due until it strikes.
  lemma {:induction false} DueUntilStruck(h: History, w: Schedule, from: nat, size: nat, x: Actor, n: nat, m: nat)
    requires InTurns(h, w, from, size) && from <= n <= m && AbortDue(h(n), x)
    ensures AbortDue(h(m), x) || exists k: nat :: n <= k && w(k) == Some(AbortOf(x))
    decreases m
  {
    hide Init, Next, Sound, Move, Follows;
    if n == m {
    } else {
      DueUntilStruck(h, w, from, size, x, n, m - 1);
      if AbortDue(h(m - 1), x) {
        assert TakesTurns(h, w, from, size, m - 1);
        MoveIsAStep(h(m - 1), Turn(size, m - 1 - from));
        RequestsStay(h(m - 1), w(m - 1), h(m));
        OnlyOwnSteps(h(m - 1), w(m - 1), h(m));
        if Performs(w(m - 1), x) {
          assert Turn(size, m - 1 - from) == x;
        }
      }
    }
  }

  lemma DueIsStruck(h: History, w: Schedule, from: nat, size: nat, x: Actor, n: nat)
    requires InTurns(h, w, from, size) && from <= n && AbortDue(h(n), x)
    ensures exists k: nat :: n <= k && w(k) == Some(AbortOf(x))
  {
    hide Init, Next, Sound, Move, Follows;
    assert TakesTurns(h, w, from, size, n);
    var m := TurnComes(size, if x.TheReader? then 0 else 1, n - from);
    m := m + from;
    DueUntilStruck(h, w, from, size, x, n, m);
    assert TakesTurns(h, w, from, size, m);
    MoveIsAStep(h(m), Turn(size, m - from));
  }

  lemma ReaderAbortIsHonoured(h: History, w: Schedule, from: nat, size: nat, n: nat)
    requires InTurns(h, w, from, size) && WeaklyFair(h, w) && h(n).core.readerAbort
    ensures exists m: nat :: n <= m && (w(m) == Some(ReaderActs(RAborted)) || ReaderEnded(h(m).reader))
  {
    hide Init, Next, Sound, Move, Ready, Performs, Weakly, WillMove, TakesTurns;
    var k := if n < from then from else n;
    forall j: nat | k <= j ensures Lowers(h, w, TheReader, ReaderToAwait, SOON, j) {
      EndlessStep(h, w, j);
      ReaderNearsAwait(h(j), w(j), h(j + 1));
    }
    var m := Progress(h, w, TheReader, ReaderToAwait, SOON, k);
    EndlessOnward(h, w, n, m);
    ReaderAwaits(h(m));
    if !ReaderEnded(h(m).reader) {
      DueIsStruck(h, w, from, size, TheReader, m);
      var j: nat :| m <= j && w(j) == Some(AbortOf(TheReader));
      assert n <= j && w(j) == Some(ReaderActs(RAborted));
    }
  }

  lemma ReaderAwaits(s: State)
    requires ReaderToAwait(s) == 0
    ensures ReaderParked(s.reader) || ReaderEnded(s.reader)
  {
  }

  lemma WriterAbortIsHonoured(h: History, w: Schedule, from: nat, size: nat, n: nat)
    requires InTurns(h, w, from, size) && WeaklyFair(h, w) && h(n).core.writerAbort
    ensures exists m: nat :: n <= m && (w(m) == Some(WriterActs(WAborted)) || WriterEnded(h(m).writer))
  {
    hide Init, Next, Sound, Move, Ready, Performs, Weakly, WillMove, TakesTurns;
    var k := if n < from then from else n;
    forall j: nat | k <= j ensures Lowers(h, w, TheWriter, WriterToAwait, SOON, j) {
      EndlessStep(h, w, j);
      WriterNearsAwait(h(j), w(j), h(j + 1));
    }
    var m := Progress(h, w, TheWriter, WriterToAwait, SOON, k);
    EndlessOnward(h, w, n, m);
    WriterAwaits(h(m));
    if !WriterEnded(h(m).writer) {
      DueIsStruck(h, w, from, size, TheWriter, m);
      var j: nat :| m <= j && w(j) == Some(AbortOf(TheWriter));
      assert n <= j && w(j) == Some(WriterActs(WAborted));
    }
  }

  lemma WriterAwaits(s: State)
    requires WriterToAwait(s) == 0
    ensures WriterParked(s.writer) || WriterEnded(s.writer)
  {
  }

  // ----- the theorem -----

  lemma TurnsAreFair(h: History, w: Schedule, from: nat, size: nat)
    requires InTurns(h, w, from, size)
    ensures Fair(h, w)
  {
    hide Init, Next, Sound, Move, Ready, Performs, TakesTurns, Weakly;
    forall x: Actor, n: nat ensures Weakly(h, w, x, n) {
      TurnsAreWeaklyFair(h, w, from, size, x, n);
    }
    forall n: nat ensures AbortsHonoured(h, w, n) {
      if h(n).core.readerAbort {
        ReaderAbortIsHonoured(h, w, from, size, n);
      }
      if h(n).core.writerAbort {
        WriterAbortIsHonoured(h, w, from, size, n);
      }
    }
  }

  // Every finite run can be continued to a fair endless one.
  lemma EveryRunHasAFairContinuation(states: seq<State>, acts: seq<Action>) returns (h: History, w: Schedule)
    requires Run(states, acts)
    ensures Fair(h, w)
    ensures forall n: nat :: n < |states| ==> h(n) == states[n]
    ensures forall n: nat :: n < |acts| ==> w(n) == Some(acts[n])
  {
    hide Init, Next, Sound, Move, After;
    var from := |acts|;
    var last := states[from];
    RunIsSound(states, acts, from);
    var size := Turns(last);
    AfterGoesOn(last, 0);
    h := (n: nat) => if n < from then states[n] else After(last, n - from);
    w := (n: nat) => if n < from then Some(acts[n]) else Move(After(last, n - from), Turn(size, n - from)).0;
    forall n: nat ensures Follows(h, w, n) && TakesTurns(h, w, from, size, n) {
      AfterGoesOn(last, if n < from then 0 else n - from);
    }
    TurnsAreFair(h, w, from, size);
  }

  lemma AfterGoesOn(s: State, n: nat)
    requires Sound(s)
    ensures After(s, 0) == s
    ensures var (a, t) := Move(After(s, n), Turn(Turns(s), n));
            After(s, n + 1) == t && StepOrStay(After(s, n), a, After(s, n + 1))
  {
    hide Sound, Move, Next;
    MoveIsAStep(After(s, n), Turn(Turns(s), n));
  }
}
