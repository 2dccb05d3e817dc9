// begin_close, abort and finish_reader_failure as the driver performs them in
// place on its cells (src/driver.rs). Each is proved to do to the cells what
// the steps of module Machine do when nobody interleaves.
module Driver {
  import opened Errors
  import opened Cells
  import opened Machine
  import opened Effects
  import opened Assertions

  // Where the steps of begin_close and abort lead.
  function AfterControl(c: Core, p: Caller): Caller {
    match p
    case CGuard => CSwap
    case CSwap => if c.closing then CDropGuard else CBegin
    case CBegin => if c.state.value.Open? then CSignal else CDropGuard
    case CSignal => CTimer
    case CTimer => if c.timerStarted then CDropGuard else CSpawn
    case CSpawn => CCheck(0)
    case CDropGuard => CCheck(0)
    case AStore(d) => APublish(d)
    case APublish(d) => ASignal(d)
    case ASignal(d) => AReader(d)
    case AReader(d) => AWriter(d)
    case AWriter(_) => AbortDone
    case _ => p
  }

  predicate Uninterrupted(p: Caller) { BeginDistance(p) > 0 && !p.CRead? }

  predicate Aborting(p: Caller) { p.AStore? || p.APublish? || p.ASignal? || p.AReader? || p.AWriter? }

  lemma ControlIsDetermined(c: Core, p: Caller, p': Caller)
    requires ControlEdge(c, p, p') && (Uninterrupted(p) || (Aborting(p) && p != AWriter(true)))
    ensures p' == AfterControl(c, p)
  {
    match p {
      case CGuard => case CSwap => case CBegin => case CSignal => case CTimer => case CSpawn => case CDropGuard =>
      case AStore(_) => case APublish(_) => case ASignal(_) => case AReader(_) => case AWriter(_) => case _ =>
    }
  }

  // There is no await and no choice inside begin_close or abort: no cancellation
  // is enabled there, and each access has one successor.
  lemma NoCancelInside(s: State, i: nat, ev: CallEvent, s': State)
    requires Next(s, CallerActs(i, ev), s') && i < |s.callers|
    requires Uninterrupted(s.callers[i]) || Aborting(s.callers[i])
    ensures ev.Go? && i < |s'.callers|
    ensures s.callers[i] != AWriter(true) ==> s'.callers[i] == AfterControl(s.core, s.callers[i])
  {
    hide CloseStep, BeginCloseStep, AborterStep, AdmitStep, SendStep, ClaimStep, ReceiveStep, ControlEdge, CallerEffect;
    CallerSummarized(s, i, ev, s');
    InsidersControl(s.callers[i]);
    OnlyGoInside(s, i, ev, s');
    if s.callers[i] != AWriter(true) {
      ControlIsDetermined(s.core, s.callers[i], s'.callers[i]);
    }
  }

  lemma InsidersControl(p: Caller)
    requires Uninterrupted(p) || Aborting(p)
    ensures Controls(p)
  {
  }

  lemma OnlyGoInside(s: State, i: nat, ev: CallEvent, s': State)
    requires Next(s, CallerActs(i, ev), s') && i < |s.callers|
    requires Uninterrupted(s.callers[i]) || Aborting(s.callers[i])
    ensures ev.Go?
  {
    match s.callers[i] {
      case CGuard => case CSwap => case CBegin => case CSignal => case CTimer => case CSpawn => case CDropGuard =>
      case AStore(_) => case APublish(_) => case ASignal(_) => case AReader(_) => case _ =>
    }
  }

  // The steps of begin_close, one after another.
  function BeginSteps(c: Core): Core {
    var counted := CallerEffect(c, CGuard);
    var swapped := CallerEffect(counted, CSwap);
    if counted.closing then CallerEffect(swapped, CDropGuard)
    else
      var begun := CallerEffect(swapped, CBegin);
      if !swapped.state.value.Open? then CallerEffect(begun, CDropGuard)
      else
        var signalled := CallerEffect(begun, CSignal);
        var timed := CallerEffect(signalled, CTimer);
        if signalled.timerStarted then CallerEffect(timed, CDropGuard) else timed
  }

  // The steps of abort.
  function AbortSteps(c: Core): Core {
    var published := CallerEffect(CallerEffect(c, AStore(false)), APublish(false));
    CallerEffect(CallerEffect(CallerEffect(published, ASignal(false)), AReader(false)), AWriter(false))
  }

  // What they come to.
  function BegunClose(c: Core): Core {
    var up := PutCount(c.tasks, c.tasks.value + 1);
    if c.closing || !c.state.value.Open? then BeginClosing(c).(tasks := PutCount(up, c.tasks.value))
    else BeginClosing(c).(state := PutState(c.state, Closing),
                               signal := PutSignal(c.signal, SignalLocalClose(c.signal.value)),
                          timerStarted := true, tasks := if c.timerStarted then PutCount(up, c.tasks.value) else up)
  }

  function Aborted(c: Core): Core {
    BeginClosing(c).(state := PutState(c.state, PublishTerminal(c.state.value, ABANDONED)), abandoned := true,
                     signal := PutSignal(c.signal, Abort), readerAbort := true, writerAbort := true)
  }

  lemma BegunCloseIsItsSteps(c: Core)
    ensures BeginSteps(c) == BegunClose(c)
  {
    hide PutSignal, SignalLocalClose, PutState;
    if c.closing || !c.state.value.Open? {
      NothingToPut(c);
    } else {
      var swapped := CallerEffect(CallerEffect(c, CGuard), CSwap);
      assert swapped == BeginClosing(c.(tasks := PutCount(c.tasks, c.tasks.value + 1)));
      var begun := CallerEffect(swapped, CBegin);
      assert begun == swapped.(state := PutState(c.state, Closing));
      var timed := CallerEffect(CallerEffect(begun, CSignal), CTimer);
      assert timed == begun.(signal := PutSignal(c.signal, SignalLocalClose(c.signal.value)), timerStarted := true);
      assert CallerEffect(timed, CDropGuard) == timed.(tasks := PutCount(timed.tasks, c.tasks.value));
    }
  }

  lemma NothingToPut(c: Core)
    requires c.closing || !c.state.value.Open?
    ensures BeginSteps(c) == BegunClose(c)
  {
  }

  lemma AbortedIsItsSteps(c: Core)
    ensures AbortSteps(c) == Aborted(c)
  {
  }

  // The cells of a core, without the record and the clock.
  function CellsOf(c: Core): Core {
    Core(c.state, c.signal, c.closing, c.timerStarted, c.tasks, c.readerAbort, c.writerAbort,
         true, 0, None, false, false, None)
  }

  // The last point of an uninterrupted begin_close: it spawns the watchdog or
  // drops its guard.
  function BeginEnd(c: Core): Caller {
    var counted := CallerEffect(c, CGuard);
    var swapped := CallerEffect(counted, CSwap);
    if AfterControl(counted, CSwap).CDropGuard? then CDropGuard
    else
      var begun := CallerEffect(swapped, CBegin);
      if AfterControl(swapped, CBegin).CDropGuard? then CDropGuard
      else AfterControl(CallerEffect(begun, CSignal), CTimer)
  }

  // Only the first begin_close of an Open connection starts the local close and
  // a watchdog. Any later one leaves state and signal alone and starts none.
  lemma BeginCloseOnce(c: Core)
    requires CoreOk(c)
    ensures BeginEnd(c).CSpawn? <==> !c.closing && c.state.value.Open? && !c.timerStarted
    ensures if c.closing || !c.state.value.Open?
            then
              && BegunClose(c).state == c.state && BegunClose(c).signal == c.signal
              && BegunClose(c).timerStarted == c.timerStarted
            else
              && BegunClose(c).state.value.Closing? && BegunClose(c).signal.value.LocalClose?
              && BegunClose(c).timerStarted
    ensures BegunClose(c).tasks.value == c.tasks.value + if BeginEnd(c).CSpawn? then 1 else 0
    ensures var d := BegunClose(c);
            && d.closing && !BeginEnd(d).CSpawn? && BegunClose(d).state == d.state && BegunClose(d).signal == d.signal
            && BegunClose(d).tasks.value == d.tasks.value
  {
    BeginEndAt(c);
    BeginEndAt(BegunClose(c));
    hide BeginEnd;
  }

  lemma BeginEndAt(c: Core)
    ensures BeginEnd(c) == if !c.closing && c.state.value.Open? && !c.timerStarted then CSpawn else CDropGuard
  {
    hide PutState, PutSignal, PutCount, BeginClose, SignalLocalClose;
  }

  class ConnectionDriver {
    const state: StateWatch
    const shutdown: SignalWatch
    const tasks: TaskCounter
    var closing: bool
    var closeTimeoutStarted: bool
    var readerAborted: bool
    var writerAborted: bool
    var watchdogs: seq<DriverTaskGuard>

    ghost function Contents(): Core reads this, state, shutdown, tasks {
      Core(state.Read(), shutdown.Read(), closing, closeTimeoutStarted, tasks.Read(), readerAborted, writerAborted,
           true, 0, None, false, false, None)
    }

    // The counter counts the guards, those of the watchdogs among them.
    ghost predicate Valid() reads this, tasks {
      && tasks.Valid()
      && (forall g :: g in watchdogs ==> g in tasks.guards && g.counter == tasks)
    }

    constructor (state: StateWatch, shutdown: SignalWatch, tasks: TaskCounter)
      requires tasks.Valid()
      ensures Valid() && watchdogs == [] && this.state == state && this.shutdown == shutdown && this.tasks == tasks
      ensures !closing && !closeTimeoutStarted && !readerAborted && !writerAborted
    {
      this.state, this.shutdown, this.tasks := state, shutdown, tasks;
      closing, closeTimeoutStarted, readerAborted, writerAborted, watchdogs := false, false, false, false, [];
    }

    method BeginClose()
      requires Valid()
      modifies this, state, shutdown, tasks
      ensures Valid() && Contents() == CellsOf(BegunClose(old(Contents())))
      ensures |watchdogs| == |old(watchdogs)| + if BeginEnd(old(Contents())).CSpawn? then 1 else 0
    {
      BeginEndAt(Contents());
      hide BeginEnd;
      var guard := new DriverTaskGuard(tasks);
      var first := !closing;
      closing := true;
      if !first {
        guard.Drop();
        return;
      }
      var started := state.BeginCloseIfOpen();
      if !started {
        guard.Drop();
        return;
      }
      shutdown.RaiseLocalClose();
      var timer := closeTimeoutStarted;
      closeTimeoutStarted := true;
      if timer {
        guard.Drop();
        return;
      }
      watchdogs := watchdogs + [guard];
    }

    method Abort()
      requires Valid()
      modifies this, state, shutdown
      ensures Valid() && Contents() == CellsOf(Aborted(old(Contents()))) && watchdogs == old(watchdogs)
      ensures state.value == PublishTerminal(old(state.value), ABANDONED) && shutdown.value.Abort?
      ensures readerAborted && writerAborted
    {
      closing := true;
      state.PublishTerminalValue(ABANDONED);
      shutdown.RaiseAbort();
      readerAborted := true;
      writerAborted := true;
    }

    // finish_reader_failure
    method FinishReaderFailure(terminal: DriverError)
      requires Valid()
      modifies this`writerAborted, state, shutdown
      ensures Valid()
      ensures var c := ReaderEffect(old(Contents()), RPublishFailure(terminal));
              Contents() == ReaderEffect(ReaderEffect(c, RSignalFailure), RAbortWriter)
    {
      state.PublishTerminalValue(terminal);
      shutdown.RaiseAbort();
      writerAborted := true;
    }
  }
}
