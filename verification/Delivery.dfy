// Back-pressure ends and messages arrive (src/driver.rs, queue_inbound and
// receive): a consumer that keeps taking unblocks the reader on every run, and
// on a fair run to which receives keep coming every data message that was read
// off the wire is returned.
module Delivery {
  import opened Errors
  import opened Lanes
  import opened Sums
  import opened Machine
  import opened Effects
  import opened Assertions
  import opened Outflow
  import opened SendOrder
  import opened Inflow
  import opened Runs
  import opened Fairness
  import opened Draining
  import opened Liveness
  import Config
  import Counting
  import Timers
  import Traffic
  import Settling

  // ----- a blocked reader is unblocked -----

  ghost predicate ConsumesAt(h: History, w: Schedule, k: nat) { w(k).Some? && Consumes(h(k), w(k).value, h(k + 1)) }

  // While messages are queued or being taken, somebody goes on taking them.
  ghost predicate KeepsConsuming(h: History, w: Schedule, k: nat) {
    Backlog(h(k)) > 0 ==> exists j: nat :: k <= j && ConsumesAt(h, w, j)
  }

  // Until then the backlog does not grow, whatever the others do.
  lemma {:induction false} BlockedUntil(h: History, w: Schedule, n: nat, j: nat) returns (k: nat)
    requires Endless(h, w) && n <= j
    ensures n <= k <= j && (!ReaderBlocked(h(k)) || (k == j && Backlog(h(j)) <= Backlog(h(n))))
    decreases j
  {
    hide Init, Next, ReaderBlocked, Backlog;
    if n == j {
      return j;
    }
    k := BlockedUntil(h, w, n, j - 1);
    if ReaderBlocked(h(k)) {
      assert Follows(h, w, j - 1);
      if w(j - 1).Some? {
        BacklogFalls(h(j - 1), w(j - 1).value, h(j));
      }
      k := j;
    }
  }

  // A consumer that keeps taking unblocks the reader. Nothing is asked of the
  // schedule beyond that.
  lemma {:induction false} ConsumerUnblocks(h: History, w: Schedule, n: nat) returns (m: nat)
    requires Endless(h, w) && forall k: nat :: n <= k ==> KeepsConsuming(h, w, k)
    ensures n <= m && !ReaderBlocked(h(m))
    decreases Backlog(h(n))
  {
    hide Init, Next, ReaderBlocked, Backlog, Consumes;
    if !ReaderBlocked(h(n)) {
      return n;
    }
    EndlessIsSound(h, w, n);
    SoundDelivers(h(n));
    SoundLimits(h(n));
    BlockedReaderHasBacklog(h(n));
    assert KeepsConsuming(h, w, n);
    var j: nat :| n <= j && ConsumesAt(h, w, j);
    m := BlockedUntil(h, w, n, j);
    if ReaderBlocked(h(m)) {
      assert Follows(h, w, j);
      BacklogFalls(h(j), w(j).value, h(j + 1));
      m := ConsumerUnblocks(h, w, j + 1);
    }
  }

  lemma SoundLimits(s: State)
    requires Sound(s)
    ensures Config.Limits(s.cfg)
  {
    hide CoreOk, ReaderOk, WriterOk, DogsOk, CallersOk, RepliesOk, InboundOk, OutboundOk, Counting.Counted;
    hide Counting.OneWatchdog, Timers.Timed, Conserved, Ordered, WireTimed, Delivering, Settling.Owed, Settling.Settled;
  }

  // ----- while the signal is Running -----

  ghost predicate Serving(s: State) { s.core.signal.value.Running? }

  // The reader is told nothing and the lane is whole.
  ghost predicate LaneIsWhole(s: State) {
    && Delivering(s) && Config.Limits(s.cfg) && !s.inq.gone && !s.core.readerAbort
    && s.core.signal.version == 0
    && (forall i :: 0 <= i < |s.callers| ==> !s.callers[i].ADropInbound?)
  }

  lemma ServingLaneIsWhole(s: State)
    requires Sound(s) && Serving(s)
    ensures LaneIsWhole(s)
  {
    hide ReaderOk, WriterOk, DogsOk, CallerOk, RepliesOk, OutboundOk, Counting.Counted;
    hide Counting.OneWatchdog, Timers.Timed, Conserved, Ordered, WireTimed, Delivering, Settling.Owed, Settling.Settled;
    forall i | 0 <= i < |s.callers| ensures !s.callers[i].ADropInbound? {
      assert CallerOk(s.core, s.callers[i]);
      DroppersHaveAborted(s.core, s.callers[i]);
    }
  }

  lemma DroppersHaveAborted(c: Core, p: Caller)
    requires CallerOk(c, p)
    ensures p.ADropInbound? ==> c.signal.value.Abort?
  {
  }

  // What has been taken, popped and returned stays so.
  lemma StepPops(s: State, a: Action, s': State)
    requires Next(s, a, s')
    ensures s.log.popped <= s'.log.popped
    ensures !a.CallerActs? ==> s'.log.popped == s.log.popped
  {
    hide CloseStep, BeginCloseStep, AborterStep, AdmitStep, SendStep, ClaimStep, ReceiveStep, Quiet, Receives;
    hide ReaderStep, WriterStep, DogStep, DogEdge, DogEffect;
    match a {
      case ReaderActs(ev) => ReaderLeavesSends(s, ev, s');
      case WriterActs(ev) =>
        WriterWorksLane(s, ev, s');
        WriterLeavesInbound(s, s');
      case DogActs(k, ev) => DogSummarized(s, k, ev, s');
      case CallerActs(i, ev) =>
        OtherCallsLeaveInbound(s, i, ev, s');
        if ClaimStep(s, i, ev, s') || ReceiveStep(s, i, ev, s') {
          ReceiverWorksLane(s, i, ev, s');
          ReceiverBalance(s.callers[i], s.inq, s.log, s'.callers[i], s'.inq, s'.log);
        }
      case _ =>
    }
  }

  // A queued message waits until it is popped.
  lemma StepKeepsQueue(s: State, a: Action, s': State)
    requires Next(s, a, s') && LaneIsWhole(s) && s.inq.queue != []
    ensures s'.inq.queue != [] || |s.log.popped| < |s'.log.popped|
  {
    hide CloseStep, BeginCloseStep, AborterStep, AdmitStep, SendStep, ClaimStep, ReceiveStep, Quiet, Receives;
    hide ReaderStep, WriterStep, DogStep, Delivering;
    match a {
      case ReaderActs(ev) => ReaderServesOn(s, ev, s');
      case CallerActs(i, ev) =>
        OtherCallsLeaveInbound(s, i, ev, s');
        if ClaimStep(s, i, ev, s') || ReceiveStep(s, i, ev, s') {
          ReceiverWorksLane(s, i, ev, s');
          ReceiverBalance(s.callers[i], s.inq, s.log, s'.callers[i], s'.inq, s'.log);
        }
      case _ => BystandersServeOn(s, a, s');
    }
  }

  lemma StepGrows(s: State, a: Option<Action>, s': State)
    requires StepOrStay(s, a, s')
    ensures |s.log.popped| <= |s'.log.popped| && |s.log.returned| <= |s'.log.returned| && s.log.taken <= s'.log.taken
  {
    hide Next;
    if a.Some? {
      StepPops(s, a.value, s');
      Traffic.StepReturns(s, a.value, s');
      Traffic.StepTakes(s, a.value, s');
    }
  }

  lemma {:induction false} EndlessGrows(h: History, w: Schedule, j: nat, k: nat)
    requires Endless(h, w) && j <= k
    ensures |h(j).log.popped| <= |h(k).log.popped| && |h(j).log.returned| <= |h(k).log.returned|
    ensures h(j).log.taken <= h(k).log.taken
    decreases k
  {
    hide Init, Next;
    if j == k {
    } else {
      EndlessGrows(h, w, j, k - 1);
      assert Follows(h, w, k - 1);
      StepGrows(h(k - 1), w(k - 1), h(k));
    }
  }

  lemma ReceiverActuallySteps(s: State, i: nat, ev: CallEvent, s': State)
    requires Next(s, CallerActs(i, ev), s') && i < |s.callers| && Receives(s.callers[i])
    ensures ReceiverActs(s, i, s')
  {
    hide CloseStep, BeginCloseStep, AborterStep, AdmitStep, SendStep, ClaimStep, ReceiveStep, Receives, ReceiverLane;
    OtherCallsLeaveInbound(s, i, ev, s');
    ReceiverWorksLane(s, i, ev, s');
  }

  // ----- a message in hand is returned -----

  function HandRank(s: State, i: nat, r0: nat): nat {
    if |s.log.returned| > r0 then 0 else if i < |s.callers| then HandDistance(s.callers[i]) else FAR
  }

  function HandDistance(p: Caller): nat {
    match p
    case VRelease(_) => 3
    case VUnlock(r) => if r.ReceivedOk? then 2 else FAR
    case VUnclaim(r) => if r.ReceivedOk? then 1 else FAR
    case _ => FAR
  }

  lemma HandFalls(p: Caller, n: Inbound, l: Log, p': Caller, n': Inbound, l': Log)
    requires ReceiverLane(p, n, l, p', n', l') && HandDistance(p) < FAR
    ensures HandDistance(p') < HandDistance(p) || |l.returned| < |l'.returned|
  {
    match p {
      case VClaim => case VLock => case VRecv => case VTerminal => case VRelease(_) => case VUnlock(_) => case _ =>
    }
  }

  lemma HandsAreReceives(s: State, i: nat)
    requires i < |s.callers| && HandDistance(s.callers[i]) < FAR
    ensures Receives(s.callers[i]) && Ready(s, TheCaller(i)) && HandDistance(s.callers[i]) > 0
  {
  }

  lemma HandDescends(s: State, i: nat, r0: nat, a: Option<Action>, s': State)
    requires Sound(s) && StepOrStay(s, a, s') && r0 <= |s.log.returned|
    ensures Falls(FAR, HandRank(s, i, r0), Ready(s, TheCaller(i)), HandRank(s', i, r0), Performs(a, TheCaller(i)))
  {
    hide Sound, Next, HandDistance, Receives, CallerReady, ReceiverLane;
    StepGrows(s, a, s');
    if 0 < HandRank(s, i, r0) < FAR {
      HandsAreReceives(s, i);
      OnlyOwnSteps(s, a, s');
      if Performs(a, TheCaller(i)) {
        ReceiverActuallySteps(s, i, a.value.ce, s');
        HandFalls(s.callers[i], s.inq, s.log, s'.callers[i], s'.inq, s'.log);
      }
    }
  }

  // More has been popped than returned: somebody holds the message.
  lemma SomebodyHolds(s: State) returns (i: nat)
    requires Delivering(s) && |s.log.returned| < |s.log.popped|
    ensures i < |s.callers| && HandDistance(s.callers[i]) < FAR
  {
    hide InboundBytes, Reading, HandsHoldLast, Exhausted, HandleGone, HandDistance;
    SumIsPositive(OutHand, s.callers);
    SumIsPositive(InHand, s.callers);
    i :| 0 <= i < |s.callers| && (OutHand(s.callers[i]) > 0 || InHand(s.callers[i]) > 0);
    HoldersAreNear(s.callers[i]);
  }

  lemma HoldersAreNear(p: Caller)
    requires OutHand(p) > 0 || InHand(p) > 0
    ensures HandDistance(p) < FAR
  {
  }

  lemma HandIsReturned(h: History, w: Schedule, n: nat) returns (m: nat)
    requires Fair(h, w) && |h(n).log.returned| < |h(n).log.popped|
    ensures n <= m && |h(n).log.returned| < |h(m).log.returned|
  {
    hide Init, Next, Sound, Ready, Performs, Weakly, AbortsHonoured, Follows, WillMove, HandDistance, Delivering;
    EndlessIsSound(h, w, n);
    SoundDelivers(h(n));
    var i := SomebodyHolds(h(n));
    var r0 := |h(n).log.returned|;
    var rank := (s: State) => HandRank(s, i, r0);
    forall j: nat | n <= j ensures Lowers(h, w, TheCaller(i), rank, FAR, j) {
      EndlessStep(h, w, j);
      EndlessGrows(h, w, n, j);
      HandDescends(h(j), i, r0, w(j), h(j + 1));
    }
    m := Progress(h, w, TheCaller(i), rank, FAR, n);
    OnlyReturnedIsZero(h(m), i, r0);
  }

  lemma OnlyReturnedIsZero(s: State, i: nat, r0: nat)
    requires HandRank(s, i, r0) == 0
    ensures |s.log.returned| > r0
  {
  }

  // ----- a queued message is popped -----

  // No receive is cancelled at this moment.
  ghost predicate Uncancelled(h: History, w: Schedule, k: nat) {
    forall i: nat :: w(k) == Some(CallerActs(i, Cancel)) && i < |h(k).callers| ==> !Receives(h(k).callers[i])
  }

  // A receive comes, now or later.
  ghost predicate ReceiveComes(h: History, k: nat) {
    exists m: nat, i: nat :: k <= m && i < |h(m).callers| && h(m).callers[i].VClaim?
  }

  ghost predicate StepUncancelled(s: State, a: Option<Action>) {
    forall i: nat :: a == Some(CallerActs(i, Cancel)) && i < |s.callers| ==> !Receives(s.callers[i])
  }

  function PopRank(s: State, i: nat, p0: nat): nat {
    if |s.log.popped| > p0 then 0
    else if i < |s.callers| && s.callers[i].VLock? then 2
    else if i < |s.callers| && s.callers[i].VRecv? then 1
    else FAR
  }

  lemma UncancelledReceivePops(s: State, i: nat, ev: CallEvent, s': State)
    requires Next(s, CallerActs(i, ev), s') && i < |s.callers| && !ev.Cancel?
    requires (s.callers[i].VLock? || s.callers[i].VRecv?) && s.inq.queue != []
    ensures i < |s'.callers|
    ensures if s.callers[i].VLock? then s'.callers[i].VRecv? else |s.log.popped| < |s'.log.popped|
  {
  }

  lemma PopDescends(s: State, i: nat, p0: nat, a: Option<Action>, s': State)
    requires Sound(s) && StepOrStay(s, a, s') && StepUncancelled(s, a) && p0 <= |s.log.popped|
    requires s.inq.queue != [] || |s.log.popped| > p0
    ensures Falls(FAR, PopRank(s, i, p0), Ready(s, TheCaller(i)), PopRank(s', i, p0), Performs(a, TheCaller(i)))
  {
    hide Sound, Next;
    StepGrows(s, a, s');
    if 0 < PopRank(s, i, p0) < FAR {
      SoundDelivers(s);
      hide Delivering;
      if s.callers[i].VLock? {
        OneReceiverAtATime(s, i, i);
      }
      OnlyOwnSteps(s, a, s');
      if Performs(a, TheCaller(i)) {
        UncancelledReceivePops(s, i, a.value.ce, s');
      }
    }
  }

  // A receive that leaves with nothing, because it was cancelled earlier.
  ghost predicate Idles(p: Caller) { (p.VUnlock? || p.VUnclaim?) && !p.received.ReceivedOk? }

  ghost predicate IdlersAmong(s: State, i: nat) {
    forall j :: 0 <= j < |s.callers| && Idles(s.callers[j]) ==> j == i
  }

  // While a message is queued and no receive is cancelled, no new one appears.
  lemma StepAddsNoIdler(s: State, a: Option<Action>, s': State, i: nat)
    requires StepOrStay(s, a, s') && StepUncancelled(s, a) && Delivering(s) && s.inq.queue != [] && IdlersAmong(s, i)
    ensures IdlersAmong(s', i)
  {
    hide Next, Idles, Delivering;
    OnlyOwnSteps(s, a, s');
    forall j | 0 <= j < |s'.callers| && Idles(s'.callers[j]) ensures j == i {
      if j >= |s.callers| {
        NewcomersDoNotIdle(s, a, s', j);
      } else if Performs(a, TheCaller(j)) {
        IdlersIdledBefore(s, j, a.value.ce, s');
      }
    }
  }

  lemma NewcomersDoNotIdle(s: State, a: Option<Action>, s': State, j: nat)
    requires StepOrStay(s, a, s') && |s.callers| <= j < |s'.callers|
    ensures !Idles(s'.callers[j])
  {
    hide CloseStep, BeginCloseStep, AborterStep, AdmitStep, SendStep, ClaimStep, ReceiveStep, Quiet;
    hide ReaderStep, WriterStep, DogStep, ReaderEdge, WriterEdge, DogEdge, ControlEdge, Controls;
    hide ReaderEffect, WriterEffect, DogEffect, CallerEffect, Answered;
    match a.value {
      case ReaderActs(ev) => ReaderSummarized(s, ev, s');
      case WriterActs(ev) => WriterSummarized(s, ev, s');
      case DogActs(k, ev) => DogSummarized(s, k, ev, s');
      case CallerActs(i, ev) => CallerSummarized(s, i, ev, s');
      case _ =>
    }
  }

  lemma IdlersIdledBefore(s: State, j: nat, ev: CallEvent, s': State)
    requires Next(s, CallerActs(j, ev), s') && j < |s.callers| && j < |s'.callers| && Idles(s'.callers[j])
    requires ev.Cancel? ==> !Receives(s.callers[j])
    requires Delivering(s) && s.inq.queue != []
    ensures Idles(s.callers[j])
  {
    hide Delivering, CloseStep, BeginCloseStep, AborterStep, AdmitStep, SendStep;
    NobodyFails(s, j);
    if ClaimStep(s, j, ev, s') || ReceiveStep(s, j, ev, s') {
      match s.callers[j] {
        case VClaim => case VLock => case VRecv => case VTerminal => case VRelease(_) => case VUnlock(_) => case _ =>
      }
    } else {
      hide ClaimStep, ReceiveStep;
      OtherCallsLeaveInbound(s, j, ev, s');
    }
  }

  lemma NobodyFails(s: State, j: nat)
    requires Delivering(s) && s.inq.queue != [] && j < |s.callers|
    ensures !s.callers[j].VTerminal?
  {
    hide InboundBytes, Reading, Receiving, HandsHoldLast, HandleGone;
  }

  // A receive on its way out with the result r.
  ghost function LeaveRank(s: State, i: nat, r: Received): nat {
    if i >= |s.callers| then FAR else LeaveDistance(s.callers[i], r)
  }

  ghost function LeaveDistance(p: Caller, r: Received): nat {
    if p == ReceiveDone(r) then 0 else if p == VUnclaim(r) then 1 else if p == VUnlock(r) then 2 else FAR
  }

  lemma LeaverFalls(p: Caller, n: Inbound, l: Log, p': Caller, n': Inbound, l': Log, r: Received)
    requires ReceiverLane(p, n, l, p', n', l') && LeaveDistance(p, r) < FAR
    ensures LeaveDistance(p', r) < LeaveDistance(p, r)
  {
    match p {
      case VClaim => case VLock => case VRecv => case VTerminal => case VRelease(_) => case VUnlock(_) => case _ =>
    }
  }

  lemma LeaverDescends(s: State, i: nat, r: Received, a: Option<Action>, s': State)
    requires StepOrStay(s, a, s')
    ensures Falls(FAR, LeaveRank(s, i, r), Ready(s, TheCaller(i)), LeaveRank(s', i, r), Performs(a, TheCaller(i)))
  {
    hide Next, LeaveDistance, Receives, CallerReady, ReceiverLane;
    if 0 < LeaveRank(s, i, r) < FAR {
      LeaversAreReceives(s, i, r);
      OnlyOwnSteps(s, a, s');
      if Performs(a, TheCaller(i)) {
        ReceiverActuallySteps(s, i, a.value.ce, s');
        LeaverFalls(s.callers[i], s.inq, s.log, s'.callers[i], s'.inq, s'.log, r);
      }
    }
  }

  lemma LeaversAreReceives(s: State, i: nat, r: Received)
    requires i < |s.callers| && 0 < LeaveDistance(s.callers[i], r) < FAR
    ensures Receives(s.callers[i]) && Ready(s, TheCaller(i))
  {
  }

  // A receive on its way out, a cancelled one for instance, ends with what it
  // has.
  lemma LeaverEnds(h: History, w: Schedule, n: nat, i: nat) returns (m: nat)
    requires Fair(h, w) && i < |h(n).callers| && (h(n).callers[i].VUnlock? || h(n).callers[i].VUnclaim?)
    ensures n <= m && i < |h(m).callers| && h(m).callers[i] == ReceiveDone(h(n).callers[i].received)
  {
    hide Init, Next, Sound, Ready, Performs, Weakly, AbortsHonoured, Follows, WillMove;
    var r := h(n).callers[i].received;
    var rank := (s: State) => LeaveRank(s, i, r);
    forall j: nat | n <= j ensures Lowers(h, w, TheCaller(i), rank, FAR, j) {
      EndlessStep(h, w, j);
      LeaverDescends(h(j), i, r, w(j), h(j + 1));
    }
    m := Progress(h, w, TheCaller(i), rank, FAR, n);
  }

  function ClaimRank(s: State, i: nat): nat {
    if s.inq.active then 0 else if i < |s.callers| && s.callers[i].VClaim? then 1 else FAR
  }

  lemma ClaimDescends(s: State, i: nat, a: Option<Action>, s': State)
    requires Sound(s) && StepOrStay(s, a, s')
    ensures Falls(FAR, ClaimRank(s, i), Ready(s, TheCaller(i)), ClaimRank(s', i), Performs(a, TheCaller(i)))
  {
    hide Sound, Next;
    if 0 < ClaimRank(s, i) < FAR {
      OnlyOwnSteps(s, a, s');
      if Performs(a, TheCaller(i)) {
        ReceiverActuallySteps(s, i, a.value.ce, s');
      }
    }
  }

  // The hypotheses of the progress argument, at one moment.
  ghost predicate Consumed(h: History, w: Schedule, k: nat) {
    Serving(h(k)) && Uncancelled(h, w, k) && ReceiveComes(h, k)
  }

  // Waiting for the next pop: a message stays queued until then.
  ghost predicate Waiting(s: State, p0: nat) { |s.log.popped| > p0 || (|s.log.popped| == p0 && s.inq.queue != []) }

  lemma {:induction false} QueueWaits(h: History, w: Schedule, n: nat, k: nat, p0: nat)
    requires Endless(h, w) && n <= k && Waiting(h(n), p0) && forall j: nat :: n <= j ==> Consumed(h, w, j)
    ensures Waiting(h(k), p0)
    decreases k
  {
    hide Init, Next, Sound, Uncancelled, ReceiveComes, LaneIsWhole;
    if n == k {
    } else {
      QueueWaits(h, w, n, k - 1, p0);
      EndlessStep(h, w, k - 1);
      assert Consumed(h, w, k - 1);
      ServingLaneIsWhole(h(k - 1));
      StepGrows(h(k - 1), w(k - 1), h(k));
      if w(k - 1).Some? && h(k - 1).inq.queue != [] {
        StepKeepsQueue(h(k - 1), w(k - 1).value, h(k));
      }
    }
  }

  lemma {:induction false} IdlersStay(h: History, w: Schedule, n: nat, k: nat, p0: nat, i: nat)
    requires Endless(h, w) && n <= k && Waiting(h(n), p0) && forall j: nat :: n <= j ==> Consumed(h, w, j)
    requires IdlersAmong(h(n), i)
    ensures |h(k).log.popped| > p0 || IdlersAmong(h(k), i)
    decreases k
  {
    hide Init, Next, Sound, ReceiveComes, Delivering, IdlersAmong;
    if n == k {
    } else {
      IdlersStay(h, w, n, k - 1, p0, i);
      QueueWaits(h, w, n, k - 1, p0);
      EndlessStep(h, w, k - 1);
      assert Consumed(h, w, k - 1);
      SoundDelivers(h(k - 1));
      StepGrows(h(k - 1), w(k - 1), h(k));
      if |h(k - 1).log.popped| == p0 {
        StepAddsNoIdler(h(k - 1), w(k - 1), h(k), i);
      }
    }
  }

  // A receive that has the claim, holds nothing and does not idle pops.
  lemma ClaimantPops(h: History, w: Schedule, n: nat, p0: nat, i: nat) returns (m: nat)
    requires Fair(h, w) && Waiting(h(n), p0) && forall j: nat :: n <= j ==> Consumed(h, w, j)
    requires i < |h(n).callers| && (h(n).callers[i].VLock? || h(n).callers[i].VRecv?)
    ensures n <= m && |h(m).log.popped| > p0
  {
    hide Init, Next, Sound, Ready, Performs, Weakly, AbortsHonoured, Follows, WillMove, ReceiveComes;
    var rank := (s: State) => PopRank(s, i, p0);
    forall j: nat | n <= j ensures Lowers(h, w, TheCaller(i), rank, FAR, j) {
      EndlessStep(h, w, j);
      QueueWaits(h, w, n, j, p0);
      assert Consumed(h, w, j);
      PopDescends(h(j), i, p0, w(j), h(j + 1));
    }
    m := Progress(h, w, TheCaller(i), rank, FAR, n);
  }

  // A claimant that neither idles nor has something in hand is on its way to
  // the queue, or has failed.
  lemma PastIsOneOf(p: Caller)
    requires Past(p) > 0
    ensures p.VLock? || p.VRecv? || p.VTerminal? || Idles(p) || HandDistance(p) < FAR
  {
  }

  // Whoever has a message in hand has popped one more than was returned.
  lemma HolderIsAhead(s: State, i: nat)
    requires Delivering(s) && i < |s.callers| && HandDistance(s.callers[i]) < FAR
    ensures |s.log.returned| < |s.log.popped|
  {
    hide InboundBytes, Reading, HandsHoldLast, Exhausted, HandleGone, HandDistance;
    SumIsPositive(OutHand, s.callers);
    SumIsPositive(InHand, s.callers);
    NearAreHolders(s.callers[i]);
  }

  lemma NearAreHolders(p: Caller)
    requires HandDistance(p) < FAR
    ensures OutHand(p) > 0 || InHand(p) > 0
  {
  }

  // At most one receive idles: it has the claim.
  lemma OneIdler(s: State, i: nat)
    requires Delivering(s) && i < |s.callers| && Idles(s.callers[i])
    ensures IdlersAmong(s, i)
  {
    hide Delivering;
    forall j | 0 <= j < |s.callers| && Idles(s.callers[j]) ensures j == i {
      OneReceiverAtATime(s, i, j);
    }
  }

  // A receive that idles leaves, and after that none does.
  lemma IdlerLeaves(h: History, w: Schedule, n: nat, p0: nat) returns (m: nat)
    requires Fair(h, w) && Waiting(h(n), p0) && forall j: nat :: n <= j ==> Consumed(h, w, j)
    ensures n <= m && (|h(m).log.popped| > p0 || (IdlersAmong(h(m), 0) && IdlersAmong(h(m), 1)))
  {
    hide Init, Next, Sound, Ready, Performs, Weakly, AbortsHonoured, Follows, WillMove, Consumed, Delivering;
    m := n;
    if i :| 0 <= i < |h(n).callers| && Idles(h(n).callers[i]) {
      EndlessIsSound(h, w, n);
      SoundDelivers(h(n));
      OneIdler(h(n), i);
      m := LeaverEnds(h, w, n, i);
      IdlersStay(h, w, n, m, p0, i);
    }
  }

  // A receive that comes claims, unless another one has the claim already.
  lemma SomebodyClaims(h: History, w: Schedule, n: nat) returns (m: nat)
    requires Fair(h, w) && ReceiveComes(h, n)
    ensures n <= m && h(m).inq.active
  {
    hide Init, Next, Sound, Ready, Performs, Weakly, AbortsHonoured, Follows, WillMove;
    var k: nat, c: nat :| n <= k && c < |h(k).callers| && h(k).callers[c].VClaim?;
    var rank := (s: State) => ClaimRank(s, c);
    forall j: nat | k <= j ensures Lowers(h, w, TheCaller(c), rank, FAR, j) {
      EndlessStep(h, w, j);
      ClaimDescends(h(j), c, w(j), h(j + 1));
    }
    m := Progress(h, w, TheCaller(c), rank, FAR, k);
  }

  // The head of the queue is popped.
  lemma QueuedIsPopped(h: History, w: Schedule, n: nat, p0: nat) returns (m: nat)
    requires Fair(h, w) && Waiting(h(n), p0) && p0 <= |h(n).log.returned|
    requires forall j: nat :: n <= j ==> Consumed(h, w, j)
    ensures n <= m && |h(m).log.popped| > p0
  {
    hide Init, Next, Sound, Ready, Performs, Weakly;
    hide AbortsHonoured, Follows, WillMove, Delivering, Serving, Uncancelled;
    hide ReceiveComes;
    var k := IdlerLeaves(h, w, n, p0);
    QueueWaits(h, w, n, k, p0);
    assert Consumed(h, w, k);
    m := SomebodyClaims(h, w, k);
    QueueWaits(h, w, n, m, p0);
    if |h(k).log.popped| > p0 {
      EndlessGrows(h, w, k, m);
    } else if |h(m).log.popped| == p0 {
      IdlersStay(h, w, k, m, p0, 0);
      IdlersStay(h, w, k, m, p0, 1);
      EndlessGrows(h, w, n, m);
      EndlessIsSound(h, w, m);
      SoundDelivers(h(m));
      var i := SomebodyIsPast(h(m));
      PastIsOneOf(h(m).callers[i]);
      NobodyFails(h(m), i);
      if HandDistance(h(m).callers[i]) < FAR {
        HolderIsAhead(h(m), i);
      } else {
        m := ClaimantPops(h, w, m, p0, i);
      }
    }
  }

  // ----- a message in the reader's hands is queued -----

  function RoomRank(s: State, p0: nat): nat {
    if s.inq.queue != [] || |s.log.popped| > p0 then 0
    else match s.reader case RGate(_) => 3 case RAcquire(_) => 2 case REnqueue(_) => 1 case _ => FAR
  }

  // With nothing queued and nothing in hand the reader is not blocked.
  lemma NothingLeftToFree(s: State)
    requires LaneIsWhole(s) && s.inq.queue == [] && |s.log.popped| <= |s.log.returned|
    ensures !ReaderBlocked(s)
  {
    hide Delivering, ReaderBlocked;
    if ReaderBlocked(s) {
      BlockedReaderHasBacklog(s);
      SumIsPositive(Releasing, s.callers);
      var i :| 0 <= i < |s.callers| && Releasing(s.callers[i]) > 0;
      HolderIsAhead(s, i);
    }
  }

  lemma ServedReaderGoesOn(s: State, ev: ReaderEvent, s': State)
    requires Next(s, ReaderActs(ev), s') && LaneIsWhole(s) && Serving(s) && s.inq.queue == []
    requires s.readerSeen <= s.core.signal.version
    ensures s.reader.RGate? ==> s'.reader == RAcquire(s.reader.m)
    ensures s.reader.RAcquire? ==> s'.reader == REnqueue(s.reader.m)
    ensures s.reader.REnqueue? ==> s'.inq.queue == [s.reader.m]
  {
  }

  lemma RoomDescends(s: State, p0: nat, a: Option<Action>, s': State)
    requires Sound(s) && Serving(s) && StepOrStay(s, a, s') && p0 <= |s.log.returned|
    ensures Falls(FAR, RoomRank(s, p0), Ready(s, TheReader), RoomRank(s', p0), Performs(a, TheReader))
  {
    hide Sound, Next, LaneIsWhole, ReaderBlocked;
    StepGrows(s, a, s');
    if 0 < RoomRank(s, p0) < FAR {
      ServingLaneIsWhole(s);
      NothingLeftToFree(s);
      OnlyOwnSteps(s, a, s');
      if Performs(a, TheReader) {
        ReaderHasSeen(s);
        ServedReaderGoesOn(s, a.value.re, s');
      }
    }
  }

  lemma ReaderHasSeen(s: State)
    requires Sound(s)
    ensures s.readerSeen <= s.core.signal.version
  {
    hide CoreOk, WriterOk, DogsOk, CallersOk, RepliesOk, InboundOk, OutboundOk, Counting.Counted;
    hide Counting.OneWatchdog, Timers.Timed, Conserved, Ordered, WireTimed, Delivering, Settling.Owed, Settling.Settled;
  }

  lemma HandIsQueued(h: History, w: Schedule, n: nat, p0: nat) returns (m: nat)
    requires Fair(h, w) && ReaderHand(h(n).reader) != [] && p0 <= |h(n).log.returned|
    requires forall j: nat :: n <= j ==> Consumed(h, w, j)
    ensures n <= m && (h(m).inq.queue != [] || |h(m).log.popped| > p0)
  {
    hide Init, Next, Sound, Ready, Performs, Weakly;
    hide AbortsHonoured, Follows, WillMove, Serving, Uncancelled, ReceiveComes;
    var rank := (s: State) => RoomRank(s, p0);
    forall j: nat | n <= j ensures Lowers(h, w, TheReader, rank, FAR, j) {
      EndlessStep(h, w, j);
      EndlessGrows(h, w, n, j);
      assert Consumed(h, w, j);
      RoomDescends(h(j), p0, w(j), h(j + 1));
    }
    m := Progress(h, w, TheReader, rank, FAR, n);
  }

  // ----- every message arrives -----

  // One more message than at n is returned.
  lemma OneMoreIsReturned(h: History, w: Schedule, n: nat) returns (m: nat)
    requires Fair(h, w) && |h(n).log.returned| < |h(n).log.taken| && forall j: nat :: n <= j ==> Consumed(h, w, j)
    ensures n <= m && |h(n).log.returned| < |h(m).log.returned|
  {
    hide Init, Next, Sound, Delivering, LaneIsWhole, Weakly;
    hide AbortsHonoured, Follows, ReaderHand, Uncancelled, ReceiveComes;
    var r0 := |h(n).log.returned|;
    m := n;
    if |h(n).log.popped| <= r0 {
      TakenIsSomewhere(h, w, n);
      if h(n).inq.queue == [] {
        m := HandIsQueued(h, w, n, r0);
      }
      EndlessGrows(h, w, n, m);
      if |h(m).log.popped| <= r0 {
        m := QueuedIsPopped(h, w, m, r0);
        EndlessGrows(h, w, n, m);
      }
    }
    if |h(m).log.returned| == r0 {
      m := HandIsReturned(h, w, m);
    }
  }

  lemma TakenIsSomewhere(h: History, w: Schedule, n: nat)
    requires Endless(h, w) && Consumed(h, w, n)
    ensures |h(n).log.returned| <= |h(n).log.popped|
    ensures h(n).log.taken == h(n).log.popped + h(n).inq.queue + ReaderHand(h(n).reader)
  {
    hide Init, Next, Sound, Delivering, ReaderHand, Uncancelled, ReceiveComes;
    EndlessIsSound(h, w, n);
    ServingLaneIsWhole(h(n));
    DeliveryIsPrefix(h(n));
  }

  lemma {:induction false} ManyMoreAreReturned(h: History, w: Schedule, n: nat, goal: nat) returns (m: nat)
    requires Fair(h, w) && goal <= |h(n).log.taken| && forall j: nat :: n <= j ==> Consumed(h, w, j)
    ensures n <= m && goal <= |h(m).log.returned|
    decreases goal - |h(n).log.returned|
  {
    hide Init, Next, Consumed, Weakly, AbortsHonoured, Follows;
    m := n;
    if |h(n).log.returned| < goal {
      var k := OneMoreIsReturned(h, w, n);
      EndlessGrows(h, w, n, k);
      m := ManyMoreAreReturned(h, w, k, goal);
    }
  }

  // On a fair run, while the signal stays Running and receives keep coming and
  // are not cancelled, every data message taken off the wire is returned, in
  // the order in which it was taken.
  lemma EveryMessageIsReturned(h: History, w: Schedule, n: nat) returns (m: nat)
    requires Fair(h, w) && forall j: nat :: n <= j ==> Uncancelled(h, w, j) && ReceiveComes(h, j)
    ensures n <= m && (!h(m).core.signal.value.Running? || h(n).log.taken <= h(m).log.returned)
  {
    hide Init, Next, Sound, Delivering, Weakly, AbortsHonoured, Follows, Uncancelled, ReceiveComes;
    if k: nat :| n <= k && !Serving(h(k)) {
      return k;
    }
    forall j: nat | n <= j ensures Consumed(h, w, j) {
      assert Serving(h(j));
    }
    m := ManyMoreAreReturned(h, w, n, |h(n).log.taken|);
    EndlessGrows(h, w, n, m);
    EndlessIsSound(h, w, m);
    SoundDelivers(h(m));
    DeliveryIsPrefix(h(m));
  }
}
