// All the invariants together, over every finite run, and what they say about
// how a connection ends (src/driver.rs).
module Runs {
  import opened Errors
  import opened Cells
  import opened Sums
  import opened Machine
  import opened Effects
  import opened Assertions
  import opened Counting
  import opened Timers
  import opened Outflow
  import opened SendOrder
  import opened Inflow
  import opened Settling

  ghost predicate Sound(s: State) {
    && Asserted(s) && Counted(s) && OneWatchdog(s) && Timed(s) && Conserved(s) && Ordered(s) && WireTimed(s)
    && Delivering(s) && Owed(s) && Settled(s)
  }

  lemma InitIsSound(s: State)
    requires Init(s)
    ensures Sound(s)
  {
    InitIsAsserted(s);
    InitDelivers(s);
  }

  lemma StepIsSound(s: State, a: Action, s': State)
    requires Sound(s) && Next(s, a, s')
    ensures Sound(s') && Moves(s.core, s'.core)
  {
    hide Next, Moves, Asserted, Counted, OneWatchdog, Timed, Conserved, Ordered, WireTimed, Delivering, Owed, Settled;
    StepKeepsAssertions(s, a, s');
    StepKeepsCount(s, a, s');
    StepKeepsHold(s, a, s');
    StepConserves(s, a, s');
    StepKeepsOrder(s, a, s');
    StepKeepsWire(s, a, s');
    StepDelivers(s, a, s');
    StepKeepsDebts(s, a, s');
    StepSettles(s, a, s');
  }

  // Every state of every run is sound.
  lemma {:induction false} RunIsSound(states: seq<State>, acts: seq<Action>, k: nat)
    requires Run(states, acts) && k < |states|
    ensures Sound(states[k])
  {
    hide Sound, Init, Next;
    if k == 0 {
      InitIsSound(states[0]);
    } else {
      RunIsSound(states, acts, k - 1);
      StepIsSound(states[k - 1], acts[k - 1], states[k]);
    }
  }

  // What never goes back along a run.
  ghost predicate Onward(c: Core, d: Core) {
    && c.now <= d.now
    && c.state.version <= d.state.version && StateMoves(c.state.value, d.state.value)
    && c.signal.version <= d.signal.version && SignalMoves(c.signal.value, d.signal.value)
    && (c.closing ==> d.closing)
    && (c.begun ==> d.begun)
    && (c.readerAbort ==> d.readerAbort)
    && (c.writerAbort ==> d.writerAbort)
    && (c.since.Some? ==> d.since == c.since)
    && (c.verdict.Some? ==> d.verdict == c.verdict)
  }

  lemma MovesOnward(c: Core, d: Core, e: Core)
    requires Onward(c, d) && Moves(d, e)
    ensures Onward(c, e)
  {
  }

  lemma {:induction false} RunOnward(states: seq<State>, acts: seq<Action>, j: nat, k: nat)
    requires Run(states, acts) && j <= k < |states|
    ensures Onward(states[j].core, states[k].core)
    decreases k
  {
    hide Init, Next, Sound, Moves;
    if j == k {
    } else {
      RunOnward(states, acts, j, k - 1);
      RunIsSound(states, acts, k - 1);
      StepIsSound(states[k - 1], acts[k - 1], states[k]);
      MovesOnward(states[j].core, states[k - 1].core, states[k].core);
    }
  }

  // Both cells only move up, three times at most, and the state leads the
  // signal.
  lemma StateLeadsSignal(states: seq<State>, acts: seq<Action>, j: nat, k: nat)
    requires Run(states, acts) && j <= k < |states|
    ensures var c, d := states[j].core, states[k].core;
            && StateMoves(c.state.value, d.state.value) && SignalMoves(c.signal.value, d.signal.value)
            && d.state.version <= 3 && d.signal.version <= 3
            && (d.signal.value.LocalClose? ==> !d.state.value.Open?)
            && (d.signal.value.PeerClose? ==> d.state.value.PeerClosed? || d.state.value.Closed?)
            && (d.signal.value.Abort? ==> d.state.value.Closed?)
  {
    RunOnward(states, acts, j, k);
    RunIsSound(states, acts, k);
    RanksAreSmall(states[k].core);
  }

  lemma RanksAreSmall(c: Core)
    requires CoreOk(c)
    ensures c.state.version <= 3 && c.signal.version <= 3
  {
  }

  // ----- one outcome for everyone -----

  // The final verdict a finished call reports, if it reports one.
  function Reported(p: Caller): Option<DriverError> {
    match p
    case CloseDone(e) => Some(e)
    case SendDone(SendFailed(e)) => Some(e)
    case ReceiveDone(ReceiveFailed(e)) => Some(e)
    case _ => None
  }

  lemma ReportsAreFinal(s: State, i: nat)
    requires Sound(s) && i < |s.callers| && Reported(s.callers[i]).Some?
    ensures s.core.state.value == Closed(Reported(s.callers[i]).value)
  {
    hide CoreOk, ReaderOk, WriterOk, DogsOk, RepliesOk, InboundOk, OutboundOk, Counted, OneWatchdog, Timed, Conserved;
    hide Ordered, WireTimed, Delivering, Owed, Settled;
    assert CallerOk(s.core, s.callers[i]);
  }

  // Whatever two calls report, at whatever times of a run, is the same value,
  // and the state is Closed with it from the first report on.
  lemma OneOutcomeForEveryone(states: seq<State>, acts: seq<Action>, j: nat, i: nat, k: nat, l: nat)
    requires Run(states, acts) && j <= k < |states|
    requires i < |states[j].callers| && l < |states[k].callers|
    requires Reported(states[j].callers[i]).Some? && Reported(states[k].callers[l]).Some?
    ensures Reported(states[j].callers[i]) == Reported(states[k].callers[l])
    ensures states[j].core.state.value == states[k].core.state.value == Closed(Reported(states[k].callers[l]).value)
  {
    hide Sound, Init, Next;
    RunIsSound(states, acts, j);
    RunIsSound(states, acts, k);
    ReportsAreFinal(states[j], i);
    ReportsAreFinal(states[k], l);
    RunOnward(states, acts, j, k);
  }

  // ----- abort() -----

  // What abort() publishes at m is final: the connection was abandoned, unless
  // it had been Closed before.
  lemma AbortDecides(states: seq<State>, acts: seq<Action>, m: nat, k: nat)
    requires Run(states, acts) && m < k < |states| && acts[m].CallerActs? && acts[m].i < |states[m].callers|
    requires states[m].callers[acts[m].i].APublish?
    ensures states[k].core.state.value == if IsClosed(states[m].core) then states[m].core.state.value
                                          else Closed(ABANDONED)
  {
    hide Init, Next, Onward;
    AbandonsState(states[m], acts[m].i, acts[m].ce, states[m + 1]);
    RunOnward(states, acts, m + 1, k);
    FinalIsFinal(states[m + 1].core, states[k].core);
  }

  lemma AbandonsState(s: State, i: nat, ev: CallEvent, s': State)
    requires Next(s, CallerActs(i, ev), s') && i < |s.callers| && s.callers[i].APublish?
    ensures s'.core.state.value == if IsClosed(s.core) then s.core.state.value else Closed(ABANDONED)
  {
    hide CloseStep, BeginCloseStep, AborterStep, AdmitStep, SendStep, ClaimStep, ReceiveStep, ControlEdge, Controls;
    CallerSummarized(s, i, ev, s');
  }

  lemma FinalIsFinal(c: Core, d: Core)
    requires Onward(c, d) && IsClosed(c)
    ensures d.state.value == c.state.value
  {
  }

  // When abort() has returned, the connection is Closed, everybody is told to
  // stop, and both tasks have been asked to abort.
  lemma AbortTakesEffect(states: seq<State>, acts: seq<Action>, k: nat, i: nat)
    requires Run(states, acts) && k < |states| && i < |states[k].callers| && states[k].callers[i].AbortDone?
    ensures var c := states[k].core; IsClosed(c) && c.signal.value.Abort? && c.readerAbort && c.writerAbort
  {
    hide Init, Next;
    RunIsSound(states, acts, k);
    AbortedIsTold(states[k], i);
  }

  lemma AbortedIsTold(s: State, i: nat)
    requires Sound(s) && i < |s.callers| && s.callers[i].AbortDone?
    ensures IsClosed(s.core) && s.core.signal.value.Abort? && s.core.readerAbort && s.core.writerAbort
  {
    hide ReaderOk, WriterOk, DogsOk, RepliesOk, InboundOk, OutboundOk, Counted, OneWatchdog, Timed, Conserved;
    hide Ordered, WireTimed, Delivering, Owed, Settled;
    assert CallerOk(s.core, s.callers[i]);
  }

  // ----- no task ends early -----

  // A reader or writer that has ended, or is dropping its locals, leaves a
  // Closed state behind, and so does a lane that reports closed.
  lemma NoTaskEndsEarly(states: seq<State>, acts: seq<Action>, k: nat)
    requires Run(states, acts) && k < |states|
    requires var s := states[k]; ReaderEnded(s.reader) || WriterEnded(s.writer) || s.inq.closed || s.outq.closed
    ensures IsClosed(states[k].core)
  {
    hide Init, Next;
    RunIsSound(states, acts, k);
    EndedMeansClosed(states[k]);
  }

  lemma EndedMeansClosed(s: State)
    requires Asserted(s)
    ensures ReaderEnded(s.reader) || WriterEnded(s.writer) || s.inq.closed || s.outq.closed ==> IsClosed(s.core)
  {
  }

  // terminal_error, wherever a call gets to it after a closed queue or a
  // dropped reply, reads the final value: its arms for Open and Closing are
  // never taken there.
  lemma TerminalErrorIsFinal(states: seq<State>, acts: seq<Action>, k: nat, i: nat)
    requires Run(states, acts) && k < |states| && i < |states[k].callers|
    requires var p := states[k].callers[i]; p.STerminal? || p.SLost? || p.VTerminal?
    ensures states[k].core.state.value == Closed(TerminalError(states[k].core.state.value))
  {
    hide Init, Next;
    RunIsSound(states, acts, k);
    AtTerminalErrorClosed(states[k], i);
  }

  lemma AtTerminalErrorClosed(s: State, i: nat)
    requires Asserted(s) && i < |s.callers|
    requires s.callers[i].STerminal? || s.callers[i].SLost? || s.callers[i].VTerminal?
    ensures IsClosed(s.core)
  {
    hide CoreOk, ReaderOk, WriterOk, DogsOk, RepliesOk, InboundOk, OutboundOk;
    assert CallerOk(s.core, s.callers[i]);
  }

  // ----- the bound on a close -----

  // From the step that sets `closing` on, the state is Closed once more than
  // close_timeout has passed, whatever calls are made or cancelled.
  lemma CloseIsBounded(states: seq<State>, acts: seq<Action>, j: nat, k: nat)
    requires Run(states, acts) && j < k < |states|
    requires !states[j].core.closing && states[j + 1].core.closing
    requires states[k].core.now > states[j + 1].core.now + states[k].cfg.closeTimeout
    ensures IsClosed(states[k].core)
  {
    hide Init, Next, Sound;
    RunIsSound(states, acts, j);
    RunIsSound(states, acts, j + 1);
    RunIsSound(states, acts, k);
    RunOnward(states, acts, j + 1, k);
    StampedAtStep(states[j], acts[j], states[j + 1]);
    SoundIsTimed(states[k]);
  }

  lemma SoundIsTimed(s: State)
    requires Sound(s)
    ensures s.core.closing <==> s.core.since.Some?
    ensures s.core.closing && !IsClosed(s.core) ==>
              s.core.now <= s.core.since.value + s.cfg.closeTimeout && SomebodyWillFinish(s)
  {
    hide ReaderOk, WriterOk, DogsOk, CallersOk, RepliesOk, InboundOk, OutboundOk, Counted, OneWatchdog, Timed;
    hide Conserved;
    hide Ordered, WireTimed, Delivering, Owed, Settled, SomebodyWillFinish;
    if s.core.closing && !IsClosed(s.core) {
      HeldCloseIsBounded(s);
    }
  }

  lemma StampedAtStep(s: State, a: Action, s': State)
    requires Next(s, a, s') && !s.core.closing && s'.core.closing
    ensures s'.core.since == Some(s.core.now) && s'.core.now == s.core.now
  {
    hide CloseStep, BeginCloseStep, AborterStep, AdmitStep, SendStep, ClaimStep, ReceiveStep, Quiet;
    hide ReaderStep, WriterStep, DogStep, ReaderEdge, WriterEdge, DogEdge, ControlEdge, Controls;
    hide ReaderEffect, WriterEffect, DogEffect, CallerEffect;
    match a {
      case ReaderActs(ev) => ReaderSummarized(s, ev, s');
      case WriterActs(ev) => WriterSummarized(s, ev, s');
      case DogActs(k, ev) => DogSummarized(s, k, ev, s');
      case CallerActs(i, ev) => CallerSummarized(s, i, ev, s');
      case _ =>
    }
  }

  // ----- after close() -----

  // When a close() has returned, reader, writer and watchdog have ended, the
  // lanes are shut, and no later step of the run changes that; the counter then
  // counts only calls inside begin_close.
  lemma CloseLeavesNothingBehind(states: seq<State>, acts: seq<Action>, j: nat, i: nat, k: nat)
    requires Run(states, acts) && j <= k < |states|
    requires i < |states[j].callers| && states[j].callers[i].CloseDone?
    ensures AtRest(states[k]) && states[k].inq.closed && states[k].outq.closed
    ensures states[k].core.tasks.value == Guards(states[k])
    decreases k
  {
    hide Init, Next;
    RunIsSound(states, acts, k);
    if j == k {
      assert CloseReturned(states[k]);
    } else {
      CloseLeavesNothingBehind(states, acts, j, i, k - 1);
      RestIsStable(states[k - 1], acts[k - 1], states[k]);
    }
    RestCounts(states[k]);
  }

  lemma RestCounts(s: State)
    requires Sound(s) && AtRest(s)
    ensures s.core.tasks.value == Guards(s) && s.inq.closed && s.outq.closed
  {
    hide CoreOk, ReaderOk, WriterOk, DogsOk, CallersOk, RepliesOk, OneWatchdog, Timed, Conserved, Ordered, WireTimed;
    hide Delivering, Owed, Settled;
    SumIsPositive(LiveDog, s.dogs);
  }
}
