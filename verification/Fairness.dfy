// Endless fair runs of module Machine, and the rule by which progress is proved
// on them.
//
// Fairness asks that a task or call that can go on does so eventually, and that
// a requested abort is honoured eventually. Input and output on the wire may
// block for ever, and a consumer need not come back.
module Fairness {
  import opened Errors
  import opened Machine
  import opened Effects
  import opened Assertions
  import opened Runs
  import Counting
  import Timers
  import Outflow
  import SendOrder
  import Inflow
  import Settling

  // What happens at each moment, if anything does.
  type History = nat -> State
  type Schedule = nat -> Option<Action>

  ghost predicate StepOrStay(s: State, a: Option<Action>, s': State) {
    if a.Some? then Next(s, a.value, s') else s' == s
  }

  ghost predicate Follows(h: History, w: Schedule, n: nat) { StepOrStay(h(n), w(n), h(n + 1)) }

  ghost predicate Endless(h: History, w: Schedule) {
    Init(h(0)) && forall n: nat :: Follows(h, w, n)
  }

  // ----- who can go on -----

  datatype Actor = TheReader | TheWriter | TheDog(k: nat) | TheCaller(i: nat)

  ghost predicate Performs(a: Option<Action>, x: Actor) {
    a.Some? &&
    match x
    case TheReader => a.value.ReaderActs?
    case TheWriter => a.value.WriterActs?
    case TheDog(k) => a.value.DogActs? && a.value.k == k
    case TheCaller(i) => a.value.CallerActs? && a.value.i == i
  }

  // Between two awaits, not yet started, or woken by a cell, a reply or a
  // timer.
  ghost predicate ReaderReady(c: Core, r: Reader, seen: nat) {
    match r
    case RSelect => seen < c.signal.version
    case RAcquire(_) => seen < c.signal.version
    case REnqueue(_) => seen < c.signal.version
    case RWaitPark(_, deadline, s) => s < c.state.version || deadline <= c.now
    case RDone => false
    case _ => true
  }

  // A message in the reader's hands has its bytes, or its room, waiting.
  ghost predicate ReaderServed(s: State) { (s.reader.RAcquire? || s.reader.REnqueue?) && !Inflow.ReaderBlocked(s) }

  ghost predicate WriterReady(c: Core, w: Writer, seen: nat) {
    match w
    case WFlush => false
    case WWrite(_) => false
    case WSendClose => false
    case WCloseFlush => false
    case WHandshakePark => seen < c.signal.version
    case WDone => false
    case _ => true
  }

  ghost predicate DogReady(c: Core, d: Dog) {
    match d
    case DPark(seen, deadline) => seen < c.state.version || deadline <= c.now
    case DDone => false
    case _ => true
  }

  ghost predicate CallerReady(s: State, i: nat)
    requires i < |s.callers|
  {
    match s.callers[i]
    case CPark(seen) => seen < s.core.state.version
    case CTasksPark(_, seen) => seen < s.core.tasks.version
    case SWaiting => i in s.outq.replies
    case SAdmitted(_) => false
    case VLock => !s.inq.locked
    case VRecv => s.inq.queue != [] || s.inq.closed
    case p => !CallerFinished(p)
  }

  ghost predicate Ready(s: State, x: Actor) {
    match x
    case TheReader => ReaderReady(s.core, s.reader, s.readerSeen) || ReaderServed(s)
    case TheWriter => WriterReady(s.core, s.writer, s.writerSeen)
    case TheDog(k) => k < |s.dogs| && DogReady(s.core, s.dogs[k])
    case TheCaller(i) => i < |s.callers| && CallerReady(s, i)
  }

  ghost predicate WillMove(w: Schedule, x: Actor, n: nat) { exists m: nat :: n <= m && Performs(w(m), x) }

  ghost predicate Weakly(h: History, w: Schedule, x: Actor, n: nat) { Ready(h(n), x) ==> WillMove(w, x, n) }

  // The wire takes what the writer is sending or flushing, or fails it.
  ghost predicate OnTheWire(p: Writer) { p.WFlush? || p.WWrite? || p.WSendClose? || p.WCloseFlush? }

  ghost predicate WireResponds(h: History, w: Schedule) {
    forall n: nat :: OnTheWire(h(n).writer) ==> WillMove(w, TheWriter, n)
  }

  ghost predicate AbortsHonoured(h: History, w: Schedule, n: nat) {
    && (h(n).core.readerAbort ==>
          exists m: nat :: n <= m && (w(m) == Some(ReaderActs(RAborted)) || ReaderEnded(h(m).reader)))
    && (h(n).core.writerAbort ==>
          exists m: nat :: n <= m && (w(m) == Some(WriterActs(WAborted)) || WriterEnded(h(m).writer)))
  }

  ghost predicate WeaklyFair(h: History, w: Schedule) { forall x: Actor, n: nat :: Weakly(h, w, x, n) }

  ghost predicate Fair(h: History, w: Schedule) {
    Endless(h, w) && WeaklyFair(h, w) && forall n: nat :: AbortsHonoured(h, w, n)
  }

  // The clock does not stop.
  ghost predicate Reaches(h: History, t: nat) { exists n: nat :: t <= h(n).core.now }

  ghost predicate TimePasses(h: History) { forall t: nat :: Reaches(h, t) }

  // ----- what endless runs inherit from finite ones -----

  lemma {:induction false} EndlessIsSound(h: History, w: Schedule, n: nat)
    requires Endless(h, w)
    ensures Sound(h(n))
  {
    hide Sound, Init, Next;
    if n == 0 {
      InitIsSound(h(0));
    } else {
      EndlessIsSound(h, w, n - 1);
      assert Follows(h, w, n - 1);
      if w(n - 1).Some? {
        StepIsSound(h(n - 1), w(n - 1).value, h(n));
      }
    }
  }

  lemma {:induction false} EndlessOnward(h: History, w: Schedule, j: nat, k: nat)
    requires Endless(h, w) && j <= k
    ensures Onward(h(j).core, h(k).core)
    decreases k
  {
    hide Sound, Init, Next, Moves;
    if j == k {
    } else {
      EndlessOnward(h, w, j, k - 1);
      EndlessIsSound(h, w, k - 1);
      assert Follows(h, w, k - 1);
      if w(k - 1).Some? {
        StepIsSound(h(k - 1), w(k - 1).value, h(k));
        MovesOnward(h(j).core, h(k - 1).core, h(k).core);
      }
    }
  }

  lemma ClosedForGood(h: History, w: Schedule, j: nat, k: nat)
    requires Endless(h, w) && j <= k && IsClosed(h(j).core)
    ensures IsClosed(h(k).core)
  {
    hide Init, Next;
    EndlessOnward(h, w, j, k);
  }

  // ----- the rule -----

  // While the rank is positive and below the cap, the actor can or will go on,
  // nobody raises the rank, and the actor lowers it.
  ghost predicate Falls(cap: nat, rank: nat, ready: bool, rank': nat, acted: bool) {
    0 < rank < cap ==> ready && rank' <= rank && (acted ==> rank' < rank)
  }

  ghost predicate Lowers(h: History, w: Schedule, x: Actor, rank: State -> nat, cap: nat, k: nat) {
    Falls(cap, rank(h(k)), Ready(h(k), x) || WillMove(w, x, k), rank(h(k + 1)), Performs(w(k), x))
  }

  // Then it comes down to zero.
  lemma {:induction false} Progress(h: History, w: Schedule, x: Actor, rank: State -> nat, cap: nat, n: nat)
    returns (m: nat)
    requires WeaklyFair(h, w) && rank(h(n)) < cap
    requires forall k: nat :: n <= k ==> Lowers(h, w, x, rank, cap, k)
    ensures n <= m && rank(h(m)) == 0
    decreases rank(h(n))
  {
    hide Ready, Endless, AbortsHonoured, Performs;
    if rank(h(n)) == 0 {
      return n;
    }
    assert Lowers(h, w, x, rank, cap, n) && Weakly(h, w, x, n);
    var b: nat :| n <= b && Performs(w(b), x);
    var k := NotRaised(h, w, x, rank, cap, n, b);
    if rank(h(k)) == 0 {
      return k;
    }
    assert Lowers(h, w, x, rank, cap, b);
    m := Progress(h, w, x, rank, cap, b + 1);
  }

  lemma {:induction false} NotRaised(h: History, w: Schedule, x: Actor, rank: State -> nat, cap: nat, n: nat, b: nat)
    returns (k: nat)
    requires n <= b && rank(h(n)) < cap && forall k: nat :: n <= k ==> Lowers(h, w, x, rank, cap, k)
    ensures n <= k <= b && (rank(h(k)) == 0 || (k == b && rank(h(b)) <= rank(h(n))))
    decreases b
  {
    hide Ready, Performs;
    if n == b {
      return b;
    }
    k := NotRaised(h, w, x, rank, cap, n, b - 1);
    if rank(h(k)) != 0 {
      assert Lowers(h, w, x, rank, cap, b - 1);
      k := b;
    }
  }

  // ----- what a step leaves alone -----

  lemma OnlyOwnSteps(s: State, a: Option<Action>, s': State)
    requires StepOrStay(s, a, s')
    ensures !Performs(a, TheReader) ==> s'.reader == s.reader
    ensures !Performs(a, TheWriter) ==> s'.writer == s.writer
    ensures |s.dogs| <= |s'.dogs|
    ensures forall k :: 0 <= k < |s.dogs| && !Performs(a, TheDog(k)) ==> s'.dogs[k] == s.dogs[k]
    ensures |s.callers| <= |s'.callers|
    ensures forall i :: 0 <= i < |s.callers| && !Performs(a, TheCaller(i)) ==> s'.callers[i] == s.callers[i]
    ensures s'.cfg == s.cfg
  {
    hide CloseStep, BeginCloseStep, AborterStep, AdmitStep, SendStep, ClaimStep, ReceiveStep, Quiet;
    hide ReaderStep, WriterStep, DogStep, ReaderEdge, WriterEdge, DogEdge, ControlEdge, Controls;
    hide ReaderEffect, WriterEffect, DogEffect, CallerEffect;
    if a.Some? {
      match a.value {
        case ReaderActs(ev) => ReaderSummarized(s, ev, s');
        case WriterActs(ev) => WriterSummarized(s, ev, s');
        case DogActs(k, ev) => DogSummarized(s, k, ev, s');
        case CallerActs(i, ev) => CallerSummarized(s, i, ev, s');
        case _ =>
      }
    }
  }

  // ----- readiness lasts -----

  // Whoever can go on still can after a step of anybody else, so that the
  // assumption on schedules is no more than weak fairness.
  lemma ReadyStaysReady(s: State, a: Action, s': State, x: Actor)
    requires Sound(s) && Next(s, a, s') && !Performs(Some(a), x) && Ready(s, x)
    ensures Ready(s', x)
  {
    hide Next, Sound, ReaderReady, WriterReady, DogReady, CallerReady;
    StepIsSound(s, a, s');
    OnlyOwnSteps(s, Some(a), s');
    match x {
      case TheReader =>
        SeenStaysSeen(s, a, s');
        if ReaderServed(s) {
          Inflow.NobodyElseBlocks(s, a, s');
        } else {
          ReaderStaysReady(s.core, s'.core, s.reader, s.readerSeen);
        }
      case TheWriter =>
        SeenStaysSeen(s, a, s');
        WriterStaysReady(s.core, s'.core, s.writer, s.writerSeen);
      case TheDog(k) => DogStaysReady(s.core, s'.core, s.dogs[k]);
      case TheCaller(i) =>
        LanesStayReady(s, a, s', i);
        CallerStaysReady(s, s', i);
    }
  }

  lemma ReaderStaysReady(c: Core, d: Core, r: Reader, seen: nat)
    requires Moves(c, d) && ReaderReady(c, r, seen)
    ensures ReaderReady(d, r, seen)
  {
  }

  lemma WriterStaysReady(c: Core, d: Core, w: Writer, seen: nat)
    requires Moves(c, d) && WriterReady(c, w, seen)
    ensures WriterReady(d, w, seen)
  {
  }

  lemma DogStaysReady(c: Core, d: Core, dog: Dog)
    requires Moves(c, d) && DogReady(c, dog)
    ensures DogReady(d, dog)
  {
  }

  lemma SeenStaysSeen(s: State, a: Action, s': State)
    requires Next(s, a, s')
    ensures !a.ReaderActs? ==> s'.readerSeen == s.readerSeen
    ensures !a.WriterActs? ==> s'.writerSeen == s.writerSeen
    ensures !a.WriterActs? && !a.StrandedDrops? ==> s'.outq.replies == s.outq.replies
    ensures forall id :: id in s.outq.replies ==> id in s'.outq.replies
  {
    hide CloseStep, BeginCloseStep, AborterStep, AdmitStep, SendStep, ClaimStep, ReceiveStep, Quiet;
    hide ReaderStep, WriterStep, DogStep, ReaderEdge, WriterEdge, DogEdge, ControlEdge, Controls;
    hide ReaderEffect, WriterEffect, DogEffect, CallerEffect;
    match a {
      case ReaderActs(ev) => ReaderSummarized(s, ev, s');
      case WriterActs(ev) => WriterSummarized(s, ev, s');
      case DogActs(k, ev) => DogSummarized(s, k, ev, s');
      case CallerActs(i, ev) => CallerSummarized(s, i, ev, s');
      case _ =>
    }
  }

  // What a waiting receive waits for is not taken from it.
  ghost predicate LaneServes(s: State, i: nat)
    requires i < |s.callers|
  {
    && (s.callers[i].VLock? ==> !s.inq.locked)
    && (s.callers[i].VRecv? ==> s.inq.queue != [] || s.inq.closed)
  }

  lemma LanesStayReady(s: State, a: Action, s': State, i: nat)
    requires Sound(s) && Next(s, a, s') && !Performs(Some(a), TheCaller(i)) && i < |s.callers|
    ensures i < |s'.callers| && s'.callers[i] == s.callers[i]
    ensures LaneServes(s, i) ==> LaneServes(s', i)
    ensures i in s.outq.replies ==> i in s'.outq.replies
  {
    hide Next, Sound;
    OnlyOwnSteps(s, Some(a), s');
    SeenStaysSeen(s, a, s');
    if LaneServes(s, i) && (s.callers[i].VLock? || s.callers[i].VRecv?) {
      SoundDelivers(s);
      match a {
        case ReaderActs(ev) => ReaderServesOn(s, ev, s');
        case CallerActs(j, ev) => OthersServeOn(s, i, j, ev, s');
        case _ => BystandersServeOn(s, a, s');
      }
    }
  }

  lemma SoundDelivers(s: State)
    requires Sound(s)
    ensures Inflow.Delivering(s)
  {
    hide Inflow.Delivering;
  }

  lemma ReaderServesOn(s: State, ev: ReaderEvent, s': State)
    requires Next(s, ReaderActs(ev), s')
    ensures s'.inq.locked == s.inq.locked && (s.inq.closed ==> s'.inq.closed)
    ensures s.inq.queue != [] ==> s'.inq.queue != []
  {
    hide ReaderStep, ReaderEdge, ReaderEffect;
    ReaderSummarized(s, ev, s');
    Inflow.ReaderWorksLane(s, ev, s');
  }

  lemma BystandersServeOn(s: State, a: Action, s': State)
    requires Next(s, a, s') && !a.ReaderActs? && !a.CallerActs?
    ensures s'.inq == s.inq
  {
    hide WriterStep, DogStep, WriterEdge, DogEdge, WriterEffect, DogEffect, Quiet;
    match a {
      case WriterActs(ev) => WriterSummarized(s, ev, s');
      case DogActs(k, ev) => DogSummarized(s, k, ev, s');
      case _ =>
    }
  }

  lemma OthersServeOn(s: State, i: nat, j: nat, ev: CallEvent, s': State)
    requires Next(s, CallerActs(j, ev), s') && Sound(s) && i < |s.callers| && i != j
    requires (s.callers[i].VLock? || s.callers[i].VRecv?) && LaneServes(s, i)
    ensures s.callers[i].VLock? ==> !s'.inq.locked
    ensures s.callers[i].VRecv? ==> s'.inq.queue != [] || s'.inq.closed
  {
    hide CloseStep, BeginCloseStep, AborterStep, AdmitStep, SendStep, ClaimStep, ReceiveStep, Inflow.Delivering;
    hide CallerEffect, ControlEdge, Controls, Receives, Sound;
    SoundDelivers(s);
    Inflow.OtherCallsLeaveInbound(s, j, ev, s');
    Inflow.OneReceiverAtATime(s, i, j);
    CallerSummarized(s, j, ev, s');
    if ClaimStep(s, j, ev, s') || ReceiveStep(s, j, ev, s') {
      Inflow.ReceiverWorksLane(s, j, ev, s');
    } else {
      DropsMeanNobody(s, i);
      DroppersHaveNoHandle(s, j);
    }
  }

  lemma DroppersHaveNoHandle(s: State, j: nat)
    requires Sound(s) && j < |s.callers|
    ensures s.callers[j].ADropInbound? ==> !s.core.handle
  {
    hide CoreOk, ReaderOk, WriterOk, DogsOk, RepliesOk, InboundOk, OutboundOk, Counting.Counted, Counting.OneWatchdog;
    hide Timers.Timed;
    hide Outflow.Conserved, SendOrder.Ordered, SendOrder.WireTimed, Inflow.Delivering, Settling.Owed, Settling.Settled;
    assert CallerOk(s.core, s.callers[j]);
  }

  lemma DropsMeanNobody(s: State, i: nat)
    requires Inflow.Delivering(s) && i < |s.callers| && (s.callers[i].VLock? || s.callers[i].VRecv?)
    ensures s.core.handle
  {
  }

  lemma CallerStaysReady(s: State, s': State, i: nat)
    requires Moves(s.core, s'.core) && i < |s.callers| && i < |s'.callers| && s'.callers[i] == s.callers[i]
    requires LaneServes(s, i) ==> LaneServes(s', i)
    requires i in s.outq.replies ==> i in s'.outq.replies
    requires CallerReady(s, i)
    ensures CallerReady(s', i)
  {
  }
}
