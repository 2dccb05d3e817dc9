// The task counter counts exactly the live guards, and at most one close
// watchdog is ever spawned (src/driver.rs, DriverTaskGuard and begin_close).
module Counting {
  import opened Cells
  import opened Sums
  import opened Machine
  import opened Effects
  import opened Assertions

  // The guard a caller holds inside begin_close.
  function GuardOf(c: Caller): nat {
    if c.CSwap? || c.CBegin? || c.CSignal? || c.CTimer? || c.CSpawn? || c.CDropGuard? then 1 else 0
  }

  // The caller that turned `closing` on, up to the timer test.
  function StarterOf(c: Caller): nat { if c.CBegin? || c.CSignal? || c.CTimer? then 1 else 0 }

  function SpawnerOf(c: Caller): nat { if c.CSpawn? then 1 else 0 }

  function LiveDog(d: Dog): nat { if d.DDone? then 0 else 1 }

  function Guards(s: State): nat { Sum(GuardOf, s.callers) }

  function Starters(s: State): nat { Sum(StarterOf, s.callers) }

  function Spawners(s: State): nat { Sum(SpawnerOf, s.callers) }

  function LiveTasks(s: State): nat {
    (if s.reader.RDone? then 0 else 1) + (if s.writer.WDone? then 0 else 1) + Sum(LiveDog, s.dogs)
  }

  // tasks_remaining is the number of live guards.
  ghost predicate Counted(s: State) { s.core.tasks.value == LiveTasks(s) + Guards(s) }

  ghost predicate OneWatchdog(s: State) {
    && Starters(s) + Spawners(s) + |s.dogs| <= 1
    && (!s.core.closing ==> Starters(s) + Spawners(s) + |s.dogs| == 0)
    && (s.core.timerStarted <==> Spawners(s) + |s.dogs| == 1)
  }

  // ----- tasks -----

  lemma ReaderEnds(timeout: nat, c: Core, r: Reader, r': Reader)
    requires ReaderEdge(timeout, c, r, r')
    ensures !r.RDone? && (r'.RDone? <==> r.RDropGuard?)
    ensures var d := ReaderEffect(c, r);
            && d.timerStarted == c.timerStarted && (c.closing ==> d.closing)
            && d.tasks.value == if r.RDropGuard? then Less(c.tasks.value) else c.tasks.value
  {
  }

  lemma WriterEnds(c: Core, w: Writer, w': Writer)
    requires WriterEdge(c, w, w')
    ensures !w.WDone? && (w'.WDone? <==> w.WDropGuard?)
  {
  }

  lemma WriterCounts(c: Core, w: Writer)
    ensures var d := WriterEffect(c, w);
            && d.timerStarted == c.timerStarted && d.closing == c.closing
            && d.tasks.value == if w.WDropGuard? then Less(c.tasks.value) else c.tasks.value
  {
  }

  lemma DogEnds(timeout: nat, c: Core, d: Dog, d': Dog)
    requires DogEdge(timeout, c, d, d')
    ensures LiveDog(d) == 1 && (LiveDog(d') == 0 <==> d.DDropGuard?)
    ensures var e := DogEffect(c, d);
            && e.timerStarted == c.timerStarted && e.closing == c.closing
            && e.tasks.value == if d.DDropGuard? then Less(c.tasks.value) else c.tasks.value
  {
  }

  // Counter exactness and the single watchdog, over a step of a task. The
  // saturating subtraction never clips: the guard being dropped is counted.
  lemma TaskKeepsCount(s: State, a: Action, s': State)
    requires Next(s, a, s') && (a.ReaderActs? || a.WriterActs? || a.DogActs?)
    requires Counted(s) && OneWatchdog(s)
    ensures Counted(s') && OneWatchdog(s')
    ensures s'.core.tasks.value == s.core.tasks.value || s'.core.tasks.value + 1 == s.core.tasks.value
  {
    hide ReaderStep, WriterStep, DogStep, ReaderEdge, WriterEdge, DogEdge, ReaderEffect, WriterEffect, DogEffect;
    match a {
      case ReaderActs(ev) =>
        ReaderSummarized(s, ev, s');
        ReaderEnds(s.cfg.closeTimeout, s.core, s.reader, s'.reader);
      case WriterActs(ev) =>
        WriterSummarized(s, ev, s');
        WriterEnds(s.core, s.writer, s'.writer);
        WriterCounts(s.core, s.writer);
      case DogActs(k, ev) =>
        DogSummarized(s, k, ev, s');
        DogEnds(s.cfg.closeTimeout, s.core, s.dogs[k], s'.dogs[k]);
        SumUpdate(LiveDog, s.dogs, k, s'.dogs[k]);
    }
  }

  // ----- calls -----

  lemma CallerSums(callers: seq<Caller>, i: nat, c: Caller)
    requires i < |callers|
    ensures Sum(GuardOf, callers[i := c]) + GuardOf(callers[i]) == Sum(GuardOf, callers) + GuardOf(c)
    ensures Sum(StarterOf, callers[i := c]) + StarterOf(callers[i]) == Sum(StarterOf, callers) + StarterOf(c)
    ensures Sum(SpawnerOf, callers[i := c]) + SpawnerOf(callers[i]) == Sum(SpawnerOf, callers) + SpawnerOf(c)
    ensures GuardOf(callers[i]) <= Sum(GuardOf, callers) && StarterOf(callers[i]) <= Sum(StarterOf, callers)
    ensures SpawnerOf(callers[i]) <= Sum(SpawnerOf, callers)
  {
    SumUpdate(GuardOf, callers, i, c);
    SumUpdate(StarterOf, callers, i, c);
    SumUpdate(SpawnerOf, callers, i, c);
  }

  ghost predicate Turned(c: Core, p: Caller, d: Core, p': Caller) {
    && (c.closing ==> d.closing)
    && (StarterOf(p') > 0 ==> StarterOf(p) > 0 || (!c.closing && d.closing))
    && (SpawnerOf(p') > 0 <==> p.CTimer? && !c.timerStarted)
    && (d.timerStarted <==> c.timerStarted || p.CTimer?)
    && (!c.closing && d.closing ==> p.CSwap? || p.AStore?)
    && (p.CTimer? && c.timerStarted ==> StarterOf(p') == 0)
  }

  lemma CallerTurns(c: Core, p: Caller, p': Caller)
    requires if Controls(p) then ControlEdge(c, p, p') else !Controls(p')
    ensures Turned(c, p, CallerEffect(c, p), p')
  {
  }

  lemma CallerCounts(c: Core, p: Caller, p': Caller)
    requires if Controls(p) then ControlEdge(c, p, p') else !Controls(p')
    requires GuardOf(p) <= c.tasks.value
    ensures CallerEffect(c, p).tasks.value + GuardOf(p) == c.tasks.value + GuardOf(p') + SpawnerOf(p)
  {
    hide PutState, PutSignal, BeginClose, PublishTerminal, SignalAbort, SignalLocalClose;
    match p {
      case CGuard => case CSwap => case CBegin => case CSignal => case CTimer => case CSpawn =>
      case CDropGuard => case _ =>
    }
  }

  // The close_timeout_started test never decides anything: the one caller that
  // gets to it finds it unset.
  lemma CallerKeepsCount(s: State, i: nat, ev: CallEvent, s': State)
    requires Next(s, CallerActs(i, ev), s') && Counted(s) && OneWatchdog(s)
    requires i < |s.callers| ==> CallerOk(s.core, s.callers[i])
    ensures Counted(s') && OneWatchdog(s')
    ensures i < |s.callers| && GuardOf(s.callers[i]) <= s.core.tasks.value
    ensures s.callers[i].CTimer? ==> !s.core.timerStarted
  {
    hide Next, CallerEffect, ControlEdge, Controls, Counted, OneWatchdog, GuardOf, StarterOf, SpawnerOf;
    CallerSummarized(s, i, ev, s');
    CallerSums(s.callers, i, s'.callers[i]);
    CallerTurns(s.core, s.callers[i], s'.callers[i]);
    if GuardOf(s.callers[i]) <= s.core.tasks.value {
      CallerCounts(s.core, s.callers[i], s'.callers[i]);
    }
    if s.callers[i].CSpawn? {
      SumAppend(LiveDog, s.dogs, DStart(s.core.state.version));
    }
    GuardsFollow(s, i, s');
    WatchdogsFollow(s, i, s');
  }

  lemma GuardsFollow(s: State, i: nat, s': State)
    requires CallerSummary(s, i, s') && Counted(s)
    requires Sum(GuardOf, s'.callers) + GuardOf(s.callers[i]) == Sum(GuardOf, s.callers) + GuardOf(s'.callers[i])
    requires GuardOf(s.callers[i]) <= Sum(GuardOf, s.callers)
    requires GuardOf(s.callers[i]) <= s.core.tasks.value ==>
               s'.core.tasks.value + GuardOf(s.callers[i])
               == s.core.tasks.value + GuardOf(s'.callers[i]) + SpawnerOf(s.callers[i])
    requires s.callers[i].CSpawn? ==> Sum(LiveDog, s'.dogs) == Sum(LiveDog, s.dogs) + 1
    ensures Counted(s') && GuardOf(s.callers[i]) <= s.core.tasks.value
  {
  }

  lemma WatchdogsFollow(s: State, i: nat, s': State)
    requires CallerSummary(s, i, s') && OneWatchdog(s) && CallerOk(s.core, s.callers[i])
    requires Sum(StarterOf, s'.callers) + StarterOf(s.callers[i])
             == Sum(StarterOf, s.callers) + StarterOf(s'.callers[i])
    requires Sum(SpawnerOf, s'.callers) + SpawnerOf(s.callers[i])
             == Sum(SpawnerOf, s.callers) + SpawnerOf(s'.callers[i])
    requires StarterOf(s.callers[i]) <= Sum(StarterOf, s.callers)
    requires SpawnerOf(s.callers[i]) <= Sum(SpawnerOf, s.callers)
    requires Turned(s.core, s.callers[i], s'.core, s'.callers[i])
    ensures OneWatchdog(s') && (s.callers[i].CTimer? ==> !s.core.timerStarted)
  {
  }

  lemma AmbientKeepsCount(s: State, a: Action, s': State)
    requires (Starts(s, a, s') || Ambient(s, a, s')) && Counted(s) && OneWatchdog(s)
    ensures Counted(s') && OneWatchdog(s')
  {
    if Starts(s, a, s') {
      var c := s'.callers[|s.callers|];
      SumAppend(GuardOf, s.callers, c);
      SumAppend(StarterOf, s.callers, c);
      SumAppend(SpawnerOf, s.callers, c);
    }
  }

  lemma StepKeepsCount(s: State, a: Action, s': State)
    requires Asserted(s) && Next(s, a, s') && Counted(s) && OneWatchdog(s)
    ensures Counted(s') && OneWatchdog(s')
  {
    hide CoreOk, ReaderOk, WriterOk, CallerOk, Counted, OneWatchdog, ReaderStep, WriterStep, DogStep, Starts, Ambient;
    hide CloseStep, BeginCloseStep, AborterStep, AdmitStep, SendStep, ClaimStep, ReceiveStep;
    match a {
      case ReaderActs(_) => TaskKeepsCount(s, a, s');
      case WriterActs(_) => TaskKeepsCount(s, a, s');
      case DogActs(_, _) => TaskKeepsCount(s, a, s');
      case CallerActs(i, ev) =>
        assert CallerOk(s.core, s.callers[i]);
        CallerKeepsCount(s, i, ev, s');
      case _ => AmbientKeepsCount(s, a, s');
    }
  }
}
