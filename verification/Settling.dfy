// The end of the connection (src/driver.rs): once the state is Closed, whoever
// published it still owes the other tasks a signal or an abort, and once a
// close() has returned nothing is left of the driver's tasks.
module Settling {
  import opened Sums
  import opened Machine
  import opened Effects
  import opened Assertions
  import opened Counting
  import opened Timers

  // ----- what is owed -----

  // An abort() that has published and not yet stopped the reader, the writer.
  ghost predicate OwesReader(p: Caller) { p.ASignal? || p.AReader? }

  ghost predicate OwesWriter(p: Caller) { p.ASignal? || p.AReader? || p.AWriter? }

  ghost predicate CallOwesReader(callers: seq<Caller>) { exists i :: 0 <= i < |callers| && OwesReader(callers[i]) }

  ghost predicate CallOwesWriter(callers: seq<Caller>) { exists i :: 0 <= i < |callers| && OwesWriter(callers[i]) }

  ghost predicate DogOwesReader(dogs: seq<Dog>) { exists k :: 0 <= k < |dogs| && dogs[k].DAbortReader? }

  ghost predicate DogOwes(d: Dog) { d.DAbortReader? || d.DAbortWriter? }

  ghost predicate DogOwesWriter(dogs: seq<Dog>) { exists k :: 0 <= k < |dogs| && DogOwes(dogs[k]) }

  ghost predicate ReaderOwesWriter(r: Reader) { r.RSignalFailure? || r.RAbortWriter? || r.RLateAbort? }

  // On the way out, whatever the others do.
  ghost predicate Leaving(w: Writer) { w.WFailSignal? || w.WReplyErr? || WriterEnded(w) }

  ghost predicate ReaderIsTold(s: State) {
    s.core.signal.value.Abort? || s.core.readerAbort || CallOwesReader(s.callers)
      || s.writer.WFailSignal? || DogOwesReader(s.dogs)
  }

  ghost predicate WriterIsTold(s: State) {
    s.core.writerAbort || CallOwesWriter(s.callers) || ReaderOwesWriter(s.reader) || DogOwesWriter(s.dogs)
  }

  // In every Closed state a reader still in its loop, and a writer not on its
  // way out, has been told to stop or is about to be.
  ghost predicate Owed(s: State) {
    IsClosed(s.core) ==> (ReaderLooping(s.reader) ==> ReaderIsTold(s)) && (Leaving(s.writer) || WriterIsTold(s))
  }

  lemma ReaderOwes(timeout: nat, c: Core, r: Reader, r': Reader)
    requires ReaderEdge(timeout, c, r, r')
    ensures ReaderLooping(r') ==> ReaderLooping(r)
    ensures var d := ReaderEffect(c, r);
            && (IsClosed(d) && !IsClosed(c) ==> !ReaderLooping(r') && ReaderOwesWriter(r'))
            && (ReaderOwesWriter(r) ==> ReaderOwesWriter(r') || d.writerAbort)
            && (c.signal.value.Abort? ==> d.signal.value.Abort?)
  {
    hide ReaderEffect;
    ReaderCloses(c, r);
    match r {
      case RLateTerminal(_) => case RLateAbort => case RPublishFailure(_) => case RSignalFailure => case RAbortWriter =>
      case RStoreClosing(_, _) => case RJudge(_, _) => case RGate(_) => case _ =>
    }
  }

  lemma ReaderCloses(c: Core, r: Reader)
    ensures var d := ReaderEffect(c, r);
            && (IsClosed(d) && !IsClosed(c) ==> r.RLateTerminal? || r.RPublishFailure?)
            && (c.signal.value.Abort? ==> d.signal.value.Abort?)
  {
  }

  lemma WriterOwes(c: Core, w: Writer, w': Writer)
    requires WriterEdge(c, w, w')
    ensures Leaving(w) ==> Leaving(w')
    ensures var d := WriterEffect(c, w);
            && (IsClosed(d) && !IsClosed(c) ==> Leaving(w') && (w'.WFailSignal? || w.WPublishPeer?))
            && (w.WFailSignal? || c.signal.value.Abort? ==> d.signal.value.Abort?)
  {
    hide WriterEffect;
    WriterCloses(c, w);
    match w {
      case WPublishPeer(_) => case WFail(_, _) => case WFailSignal(_, _) => case WReplyErr(_, _) => case WDropGuard =>
      case WDropCommand(_) => case WRelease(_) => case WShut => case WDrain => case WDropTransport => case _ =>
    }
  }

  lemma WriterCloses(c: Core, w: Writer)
    ensures var d := WriterEffect(c, w);
            && (IsClosed(d) && !IsClosed(c) ==> w.WFail? || w.WPublishPeer?)
            && (w.WFailSignal? || c.signal.value.Abort? ==> d.signal.value.Abort?)
  {
  }

  // The writer publishes a peer outcome only when the reader has left its loop.
  lemma PeerOutcomeMeansReaderLeft(c: Core, w: Writer, seen: nat, r: Reader, rseen: nat)
    requires WriterOk(c, w, seen) && ReaderOk(c, r, rseen) && w.WPublishPeer?
    ensures !ReaderLooping(r)
  {
  }

  lemma DogPays(timeout: nat, c: Core, d: Dog, d': Dog)
    requires DogEdge(timeout, c, d, d')
    ensures var e := DogEffect(c, d);
            && (IsClosed(e) && !IsClosed(c) ==> d'.DAbortReader?)
            && (d.DAbortReader? ==> e.readerAbort && DogOwes(d'))
            && (d.DAbortWriter? ==> e.writerAbort)
  {
  }

  lemma CallerPays(c: Core, p: Caller, p': Caller)
    requires if Controls(p) then ControlEdge(c, p, p') else !Controls(p')
    ensures var d := CallerEffect(c, p);
            && (IsClosed(d) && !IsClosed(c) ==> OwesReader(p') && OwesWriter(p'))
            && (OwesReader(p) ==> OwesReader(p') || d.readerAbort)
            && (OwesWriter(p) ==> OwesWriter(p') || d.writerAbort)
            && (c.signal.value.Abort? ==> d.signal.value.Abort?)
  {
    hide CallerEffect;
    CallerCloses(c, p);
    match p { case APublish(_) => case ASignal(_) => case AReader(_) => case AWriter(_) => case _ => }
  }

  lemma CallerCloses(c: Core, p: Caller)
    ensures var d := CallerEffect(c, p);
            && (IsClosed(d) && !IsClosed(c) ==> p.APublish?)
            && (c.signal.value.Abort? ==> d.signal.value.Abort?)
  {
  }

  lemma SomeoneStillOwes(callers: seq<Caller>, i: nat, p: Caller)
    requires i < |callers|
    ensures OwesReader(p) ==> CallOwesReader(callers[i := p])
    ensures OwesWriter(p) ==> CallOwesWriter(callers[i := p])
    ensures CallOwesReader(callers) && !OwesReader(callers[i]) ==> CallOwesReader(callers[i := p])
    ensures CallOwesWriter(callers) && !OwesWriter(callers[i]) ==> CallOwesWriter(callers[i := p])
  {
    var after := callers[i := p];
    assert after[i] == p;
    assert forall j :: 0 <= j < |callers| && j != i ==> after[j] == callers[j];
  }

  lemma DogsStillOwe(dogs: seq<Dog>, k: nat, d: Dog)
    requires k < |dogs|
    ensures d.DAbortReader? ==> DogOwesReader(dogs[k := d])
    ensures DogOwes(d) ==> DogOwesWriter(dogs[k := d])
    ensures DogOwesReader(dogs) && !dogs[k].DAbortReader? ==> DogOwesReader(dogs[k := d])
    ensures DogOwesWriter(dogs) && !DogOwes(dogs[k]) ==> DogOwesWriter(dogs[k := d])
  {
    var after := dogs[k := d];
    assert after[k] == d;
    assert forall j :: 0 <= j < |dogs| && j != k ==> after[j] == dogs[j];
  }

  lemma MoreDogsOwe(dogs: seq<Dog>, d: Dog)
    ensures DogOwesReader(dogs) ==> DogOwesReader(dogs + [d])
    ensures DogOwesWriter(dogs) ==> DogOwesWriter(dogs + [d])
  {
    assert forall j :: 0 <= j < |dogs| ==> (dogs + [d])[j] == dogs[j];
  }

  lemma MoreCallsOwe(callers: seq<Caller>, p: Caller)
    ensures CallOwesReader(callers) ==> CallOwesReader(callers + [p])
    ensures CallOwesWriter(callers) ==> CallOwesWriter(callers + [p])
  {
    assert forall j :: 0 <= j < |callers| ==> (callers + [p])[j] == callers[j];
  }

  lemma TasksKeepDebts(s: State, a: Action, s': State)
    requires Asserted(s) && Owed(s) && Next(s, a, s') && (a.ReaderActs? || a.WriterActs? || a.DogActs?)
    ensures Owed(s')
  {
    hide ReaderStep, WriterStep, DogStep, ReaderEdge, ReaderEffect, WriterEdge, WriterEffect, DogEdge, DogEffect;
    hide CoreOk, ReaderOk, WriterOk, DogsOk, CallersOk, RepliesOk, InboundOk, OutboundOk, Answered;
    hide ReaderLooping, ReaderOwesWriter, Leaving, CallOwesReader, CallOwesWriter, DogOwesReader, DogOwesWriter;
    hide DogOwes;
    match a {
      case ReaderActs(ev) =>
        ReaderSummarized(s, ev, s');
        ReaderOwes(s.cfg.closeTimeout, s.core, s.reader, s'.reader);
      case WriterActs(ev) =>
        WriterSummarized(s, ev, s');
        WriterOwes(s.core, s.writer, s'.writer);
        if s.writer.WPublishPeer? {
          PeerOutcomeMeansReaderLeft(s.core, s.writer, s.writerSeen, s.reader, s.readerSeen);
        }
        FailingLeaves(s.writer);
        FailingLeaves(s'.writer);
      case DogActs(k, ev) =>
        DogSummarized(s, k, ev, s');
        DogPays(s.cfg.closeTimeout, s.core, s.dogs[k], s'.dogs[k]);
        DogsStillOwe(s.dogs, k, s'.dogs[k]);
        assert DogOwes(DAbortReader) && DogOwes(DAbortWriter) by { AbortersOwe(); }
        OnlyAbortersOwe(s.dogs[k]);
    }
  }

  lemma FailingLeaves(w: Writer)
    ensures w.WFailSignal? ==> Leaving(w)
  {
  }

  lemma AbortersOwe()
    ensures DogOwes(DAbortReader) && DogOwes(DAbortWriter)
  {
  }

  lemma OnlyAbortersOwe(d: Dog)
    ensures DogOwes(d) <==> d.DAbortReader? || d.DAbortWriter?
  {
  }

  lemma CallsKeepDebts(s: State, i: nat, ev: CallEvent, s': State)
    requires Owed(s) && Next(s, CallerActs(i, ev), s')
    ensures Owed(s')
  {
    hide Next, CallerEffect, ControlEdge, Controls, OwesReader, OwesWriter, CallOwesReader, CallOwesWriter;
    hide DogOwesReader, DogOwesWriter;
    CallerSummarized(s, i, ev, s');
    CallerPays(s.core, s.callers[i], s'.callers[i]);
    SomeoneStillOwes(s.callers, i, s'.callers[i]);
    MoreDogsOwe(s.dogs, DStart(s.core.state.version));
  }

  lemma AmbientKeepsDebts(s: State, a: Action, s': State)
    requires (Starts(s, a, s') || Ambient(s, a, s')) && Owed(s)
    ensures Owed(s')
  {
    hide Quiet, CallOwesReader, CallOwesWriter, DogOwesReader, DogOwesWriter;
    if Starts(s, a, s') {
      MoreCallsOwe(s.callers, s'.callers[|s.callers|]);
    }
  }

  lemma StepKeepsDebts(s: State, a: Action, s': State)
    requires Asserted(s) && Owed(s) && Next(s, a, s')
    ensures Owed(s')
  {
    hide Asserted, Owed, ReaderStep, WriterStep, DogStep, Starts, Ambient;
    hide CloseStep, BeginCloseStep, AborterStep, AdmitStep, SendStep, ClaimStep, ReceiveStep;
    match a {
      case ReaderActs(_) => TasksKeepDebts(s, a, s');
      case WriterActs(_) => TasksKeepDebts(s, a, s');
      case DogActs(_, _) => TasksKeepDebts(s, a, s');
      case CallerActs(i, ev) => CallsKeepDebts(s, i, ev, s');
      case _ => AmbientKeepsDebts(s, a, s');
    }
  }

  // ----- after a close() has returned -----

  ghost predicate CloseReturned(s: State) { exists i :: 0 <= i < |s.callers| && s.callers[i].CloseDone? }

  ghost predicate AllDone(dogs: seq<Dog>) { forall k :: 0 <= k < |dogs| ==> dogs[k].DDone? }

  // Reader, writer and watchdog have ended, and nobody is left who could start
  // another watchdog.
  ghost predicate AtRest(s: State) {
    && IsClosed(s.core) && s.reader.RDone? && s.writer.WDone? && AllDone(s.dogs) && !SomeSpawner(s.callers)
  }

  ghost predicate Settled(s: State) { CloseReturned(s) ==> AtRest(s) }

  // The tasks that remain are none: the counter has been read as zero.
  lemma ZeroMeansRest(s: State)
    requires Counted(s) && s.core.tasks.value == 0 && IsClosed(s.core)
    ensures AtRest(s)
  {
    SumIsPositive(LiveDog, s.dogs);
    SumIsPositive(GuardOf, s.callers);
    forall k | 0 <= k < |s.dogs| ensures s.dogs[k].DDone? {
      assert LiveDog(s.dogs[k]) == 0;
    }
    forall i | 0 <= i < |s.callers| ensures !SpawnerAt(s.callers[i]) {
      assert GuardOf(s.callers[i]) == 0;
    }
  }

  // A closed connection has no way back to a spawn.
  lemma RestingCaller(c: Core, p: Caller, p': Caller)
    requires IsClosed(c) && !SpawnerAt(p)
    requires if Controls(p) then ControlEdge(c, p, p') else !Controls(p')
    ensures !SpawnerAt(p') && IsClosed(CallerEffect(c, p)) && !p.CSpawn?
  {
  }

  lemma RestIsStable(s: State, a: Action, s': State)
    requires AtRest(s) && Next(s, a, s')
    ensures AtRest(s')
  {
    hide CloseStep, BeginCloseStep, AborterStep, AdmitStep, SendStep, ClaimStep, ReceiveStep, SpawnerAt, Quiet;
    hide ReaderStep, WriterStep, DogStep, CallerEffect, ControlEdge, Controls;
    match a {
      case ReaderActs(ev) => ReaderSummarized(s, ev, s');
      case WriterActs(ev) => WriterSummarized(s, ev, s');
      case DogActs(k, ev) => DogSummarized(s, k, ev, s');
      case CallerActs(i, ev) =>
        CallerSummarized(s, i, ev, s');
        RestingCaller(s.core, s.callers[i], s'.callers[i]);
        forall j | 0 <= j < |s'.callers| ensures !SpawnerAt(s'.callers[j]) {
          if j != i {
            assert s'.callers[j] == s.callers[j];
          }
        }
      case CallStarts(c) => RestingCalls(s.callers, c);
      case HandleDrops => RestingCalls(s.callers, AStore(true));
      case _ =>
    }
  }

  lemma RestingCalls(callers: seq<Caller>, p: Caller)
    requires !SomeSpawner(callers) && (CallerFresh(p) || p == AStore(true))
    ensures !SomeSpawner(callers + [p])
  {
  }

  lemma FreshIsNoSpawner(p: Caller)
    requires CallerFresh(p) || p == AStore(true)
    ensures !SpawnerAt(p) && !p.CloseDone?
  {
  }

  lemma StepSettles(s: State, a: Action, s': State)
    requires Asserted(s) && Counted(s) && Settled(s) && Next(s, a, s')
    ensures Settled(s')
  {
    hide Next, AtRest, Asserted, Counted;
    if CloseReturned(s) {
      RestIsStable(s, a, s');
    } else if CloseReturned(s') {
      FirstReturn(s, a, s');
    }
  }

  lemma FirstReturn(s: State, a: Action, s': State)
    requires Asserted(s) && Counted(s) && Next(s, a, s') && !CloseReturned(s) && CloseReturned(s')
    ensures AtRest(s')
  {
    hide CloseStep, BeginCloseStep, AborterStep, AdmitStep, SendStep, ClaimStep, ReceiveStep, Quiet, AtRest;
    hide ReaderStep, WriterStep, DogStep, ReaderEdge, WriterEdge, DogEdge, ControlEdge, CallerEffect, Controls;
    hide CoreOk, ReaderOk, WriterOk, DogsOk, CallerOk, RepliesOk, InboundOk, OutboundOk, Counted;
    var j :| 0 <= j < |s'.callers| && s'.callers[j].CloseDone?;
    match a {
      case ReaderActs(ev) => ReaderSummarized(s, ev, s');
      case WriterActs(ev) => WriterSummarized(s, ev, s');
      case DogActs(k, ev) => DogSummarized(s, k, ev, s');
      case CallerActs(i, ev) =>
        CallerSummarized(s, i, ev, s');
        assert i == j;
        assert CallerOk(s.core, s.callers[i]);
        Returns(s.core, s.callers[i], s'.callers[i]);
        ZeroMeansRest(s);
        RestIsStable(s, a, s');
      case CallStarts(c) => FreshIsNoSpawner(c);
      case _ =>
    }
  }

  lemma Returns(c: Core, p: Caller, p': Caller)
    requires (if Controls(p) then ControlEdge(c, p, p') else !Controls(p')) && p'.CloseDone? && CallerOk(c, p)
    ensures c.tasks.value == 0 && IsClosed(c)
  {
  }
}
