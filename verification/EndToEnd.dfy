// The facade on top of the driver (fogws/client.py and src/driver.rs): what the
// receive() calls of Python return, against what came off the wire.
module EndToEnd {
  import opened Lanes
  import opened Machine
  import opened Effects
  import opened Inflow
  import opened Runs
  import opened Fairness
  import F = Facade
  import Outflow
  import Traffic

  // The driver, the facade, and the driver's call behind each native receive.
  datatype Joint = Joint(driver: State, facade: F.Facade, ids: seq<nat>)

  datatype Label =
    | DriverActs(act: Action)
    | StartsNative               // a receive() call that starts a native receive
    | FacadeActs(event: F.Event)

  // A finished driver call as the asyncio future shows it.
  function Shown(r: Received): F.Native {
    match r
    case ReceivedOk(m) => F.Message(m)
    case ReceiveFailed(e) => F.Failed(e)
    case ReceiveRejected(e) => F.Failed(e)
    case ReceiveCancelled => F.CancelledDirectly
  }

  ghost predicate CancelsReceive(s: State, a: Action) {
    a.CallerActs? && a.ce.Cancel? && a.i < |s.callers| && Receives(s.callers[a.i])
  }

  // The facade's future ends as its driver call has ended.
  ghost predicate Settles(j: Joint, k: nat, n: F.Native) {
    && k < |j.ids| && j.ids[k] < |j.driver.callers| && j.driver.callers[j.ids[k]].ReceiveDone?
    && n == Shown(j.driver.callers[j.ids[k]].received)
  }

  ghost predicate JointNext(j: Joint, l: Label, j': Joint) {
    match l
    case DriverActs(a) =>
      a != CallStarts(VClaim) && Next(j.driver, a, j'.driver) && j' == j.(driver := j'.driver)
    case StartsNative =>
      && !j.facade.active && !F.Retains(j.facade) && Next(j.driver, CallStarts(VClaim), j'.driver)
      && j' == Joint(j'.driver, F.Apply(j.facade, F.Calls), j.ids + [|j.driver.callers|])
    case FacadeActs(e) =>
      && (e.Calls? ==> j.facade.active || F.Retains(j.facade))
      && (e.Completes? ==> Settles(j, e.k, e.n))
      && j' == j.(facade := F.Apply(j.facade, e))
  }

  // Nobody cancels a native receive itself, and no exception but a cancellation
  // is thrown into a suspended call.
  ghost predicate Undisturbed(j: Joint, l: Label) {
    match l
    case DriverActs(a) => !CancelsReceive(j.driver, a)
    case StartsNative => true
    case FacadeActs(e) => !e.CancelsNative? && !e.Interrupts?
  }

  ghost predicate JointRun(joints: seq<Joint>, labels: seq<Label>) {
    && |joints| == |labels| + 1
    && Init(joints[0].driver) && joints[0].facade == F.FRESH && joints[0].ids == []
    && forall k :: 0 <= k < |labels| ==>
         JointNext(joints[k], labels[k], joints[k + 1]) && Undisturbed(joints[k], labels[k])
  }

  // ----- what the two have in common -----

  // The messages of the driver calls that have finished, in the order in which
  // the calls were started.
  function Told(callers: seq<Caller>, ids: seq<nat>): seq<InboundMessage>
    requires forall k :: 0 <= k < |ids| ==> ids[k] < |callers|
  {
    if ids == [] then [] else Told(callers, ids[..|ids| - 1]) + ToldBy(callers[ids[|ids| - 1]])
  }

  function ToldBy(p: Caller): seq<InboundMessage> {
    if p.ReceiveDone? && p.received.ReceivedOk? then [p.received.m] else []
  }

  function Messages(natives: seq<F.Native>): seq<InboundMessage> {
    if natives == [] then []
    else
      var last := natives[|natives| - 1];
      Messages(natives[..|natives| - 1]) + if last.Message? then [last.m] else []
  }

  ghost predicate Finished(p: Caller) {
    p.ReceiveDone? && !p.received.ReceiveCancelled? && !p.received.ReceiveRejected?
  }

  // Each native receive stands for one driver call, all but the newest have
  // finished, and the driver knows of no other receive.
  ghost predicate Matched(callers: seq<Caller>, natives: seq<F.Native>, ids: seq<nat>) {
    && |ids| == |natives|
    && (forall k :: 0 <= k < |ids| ==> ids[k] < |callers| && Receives(callers[ids[k]]))
    && (forall j, k :: 0 <= j < k < |ids| ==> ids[j] < ids[k])
    && (forall i :: 0 <= i < |callers| && Receives(callers[i]) ==> i in ids)
    && (forall k :: 0 <= k < |ids| && !natives[k].Outstanding? ==>
          Finished(callers[ids[k]]) && natives[k] == Shown(callers[ids[k]].received))
    && (forall k :: 0 <= k < |ids| - 1 ==> !natives[k].Outstanding?)
    && (forall k :: 0 <= k < |ids| && callers[ids[k]].ReceiveDone? ==> Finished(callers[ids[k]]))
    && (forall k :: 0 <= k < |ids| ==> Wholesome(callers[ids[k]]))
  }

  // On its way out a call carries no cancellation and no refusal.
  ghost predicate Wholesome(p: Caller) {
    p.VUnlock? || p.VUnclaim? ==> !p.received.ReceiveCancelled? && !p.received.ReceiveRejected?
  }

  ghost predicate Agrees(j: Joint) {
    && Sound(j.driver) && F.Exact(j.facade) && j.facade.dropped == {}
    && Matched(j.driver.callers, j.facade.natives, j.ids)
    && Told(j.driver.callers, j.ids) == j.driver.log.returned
  }

  lemma ToldSnoc(callers: seq<Caller>, ids: seq<nat>, i: nat)
    requires i < |callers| && forall k :: 0 <= k < |ids| ==> ids[k] < |callers|
    ensures Told(callers, ids + [i]) == Told(callers, ids) + ToldBy(callers[i])
  {
    assert (ids + [i])[..|ids|] == ids;
  }

  lemma {:induction false} ToldAgrees(callers: seq<Caller>, after: seq<Caller>, ids: seq<nat>)
    requires forall k :: 0 <= k < |ids| ==> ids[k] < |callers| && ids[k] < |after|
    requires forall k :: 0 <= k < |ids| ==> ToldBy(after[ids[k]]) == ToldBy(callers[ids[k]])
    ensures Told(after, ids) == Told(callers, ids)
  {
    if ids == [] {
    } else {
      ToldAgrees(callers, after, ids[..|ids| - 1]);
    }
  }

  // ----- the driver's steps -----

  // The newest native receive alone can still be at work.
  lemma OnlyNewestWorks(callers: seq<Caller>, natives: seq<F.Native>, ids: seq<nat>, i: nat)
    requires Matched(callers, natives, ids) && i < |callers| && Receives(callers[i]) && !callers[i].ReceiveDone?
    ensures ids != [] && i == ids[|ids| - 1] && natives[|ids| - 1].Outstanding?
    ensures forall k :: 0 <= k < |ids| - 1 ==> callers[ids[k]].ReceiveDone?
    ensures forall j :: 0 <= j < |callers| && j != i && Receives(callers[j]) ==> callers[j].ReceiveDone?
  {
  }

  // So the driver never refuses it.
  lemma FlagIsFree(s: State, natives: seq<F.Native>, ids: seq<nat>, i: nat)
    requires Delivering(s) && Matched(s.callers, natives, ids) && i < |s.callers| && s.callers[i].VClaim?
    ensures !s.inq.active
  {
    hide Matched, Delivering;
    OnlyNewestWorks(s.callers, natives, ids, i);
    if s.inq.active {
      var j := SomebodyIsPast(s);
      PastReceives(s.callers[j]);
    }
  }

  lemma PastReceives(p: Caller)
    requires Past(p) > 0
    ensures Receives(p) && !p.ReceiveDone? && !p.VClaim?
  {
  }

  // How a receive that is neither cancelled nor refused goes on.
  lemma ReceiveGoesOn(s: State, i: nat, ev: CallEvent, s': State)
    requires Next(s, CallerActs(i, ev), s') && i < |s.callers| && Receives(s.callers[i]) && !ev.Cancel?
    requires s.callers[i].VClaim? ==> !s.inq.active
    requires Wholesome(s.callers[i])
    ensures i < |s'.callers| && Receives(s'.callers[i]) && Wholesome(s'.callers[i]) && !s.callers[i].ReceiveDone?
    ensures s'.callers[i].ReceiveDone? ==> Finished(s'.callers[i])
  {
    hide CloseStep, BeginCloseStep, AborterStep, AdmitStep, SendStep;
    OtherCallsLeaveInbound(s, i, ev, s');
    if ClaimStep(s, i, ev, s') {
      match s.callers[i] { case VClaim => case VLock => case VUnlock(_) => case _ => }
    } else {
      match s.callers[i] { case VRecv => case VTerminal => case _ => }
    }
  }

  lemma MatchedAfter(callers: seq<Caller>, natives: seq<F.Native>, ids: seq<nat>, i: nat, p: Caller)
    requires Matched(callers, natives, ids) && i < |callers|
    requires Receives(p) <==> Receives(callers[i])
    requires Receives(p) ==> !callers[i].ReceiveDone? && Wholesome(p) && (p.ReceiveDone? ==> Finished(p))
    ensures Matched(callers[i := p], natives, ids)
  {
    hide Receives, Shown, Finished, Wholesome;
    var after := callers[i := p];
    if Receives(p) {
      OnlyNewestWorks(callers, natives, ids, i);
    }
    forall k | 0 <= k < |ids| ensures ids[k] == i || after[ids[k]] == callers[ids[k]] {
    }
  }

  lemma ToldAfter(callers: seq<Caller>, natives: seq<F.Native>, ids: seq<nat>, i: nat, p: Caller)
    requires Matched(callers, natives, ids) && i < |callers| && Receives(callers[i]) && !callers[i].ReceiveDone?
    ensures Told(callers[i := p], ids) == Told(callers, ids) + ToldBy(p)
  {
    hide Shown, Wholesome, Receives;
    OnlyNewestWorks(callers, natives, ids, i);
    var before := ids[..|ids| - 1];
    assert ids == before + [i];
    ToldSnoc(callers, before, i);
    ToldSnoc(callers[i := p], before, i);
    ToldAgrees(callers, callers[i := p], before);
  }

  lemma CallerKeepsMatch(j: Joint, i: nat, ev: CallEvent, s': State)
    requires Agrees(j) && Next(j.driver, CallerActs(i, ev), s') && !CancelsReceive(j.driver, CallerActs(i, ev))
    ensures Matched(s'.callers, j.facade.natives, j.ids) && Told(s'.callers, j.ids) == s'.log.returned
  {
    hide Sound, CloseStep, BeginCloseStep, AborterStep, AdmitStep, SendStep, ClaimStep, ReceiveStep, Receives;
    hide CallerEffect, ControlEdge, Controls, Matched, Told, Wholesome, Finished, F.Exact;
    var s := j.driver;
    CallerSummarized(s, i, ev, s');
    OtherCallsLeaveInbound(s, i, ev, s');
    Traffic.StepReturns(s, CallerActs(i, ev), s');
    var p, p' := s.callers[i], s'.callers[i];
    if ClaimStep(s, i, ev, s') || ReceiveStep(s, i, ev, s') {
      Outflow.ReceiveStaysReceive(s, i, ev, s');
    }
    if Receives(p) {
      WholesomeAt(s.callers, j.facade.natives, j.ids, i);
      if p.VClaim? {
        SoundDelivers(s);
        FlagIsFree(s, j.facade.natives, j.ids, i);
      }
      ReceiveGoesOn(s, i, ev, s');
      MatchedAfter(s.callers, j.facade.natives, j.ids, i, p');
      ToldAfter(s.callers, j.facade.natives, j.ids, i, p');
    } else {
      OthersFinishNothing(p, p');
      MatchedAfter(s.callers, j.facade.natives, j.ids, i, p');
      ToldElsewhere(s.callers, j.facade.natives, j.ids, i, p');
    }
  }

  lemma WholesomeAt(callers: seq<Caller>, natives: seq<F.Native>, ids: seq<nat>, i: nat)
    requires Matched(callers, natives, ids) && i < |callers| && Receives(callers[i])
    ensures Wholesome(callers[i])
  {
  }

  lemma OthersFinishNothing(p: Caller, p': Caller)
    requires !Receives(p) || !Receives(p')
    ensures !Receives(p') ==> !p'.ReceiveDone?
  {
  }

  lemma ToldElsewhere(callers: seq<Caller>, natives: seq<F.Native>, ids: seq<nat>, i: nat, p: Caller)
    requires Matched(callers, natives, ids) && i < |callers| && !Receives(callers[i])
    ensures Told(callers[i := p], ids) == Told(callers, ids)
  {
    hide Shown, Wholesome, Receives;
    ToldAgrees(callers, callers[i := p], ids);
  }

  lemma NewCallMatches(callers: seq<Caller>, natives: seq<F.Native>, ids: seq<nat>, p: Caller)
    requires Matched(callers, natives, ids) && !Receives(p)
    ensures Matched(callers + [p], natives, ids) && Told(callers + [p], ids) == Told(callers, ids)
  {
    hide Shown, Wholesome, Receives;
    ToldAgrees(callers, callers + [p], ids);
    assert forall k :: 0 <= k < |callers| ==> (callers + [p])[k] == callers[k];
  }

  lemma NewReceiveMatches(callers: seq<Caller>, natives: seq<F.Native>, ids: seq<nat>)
    requires Matched(callers, natives, ids) && forall k :: 0 <= k < |natives| ==> !natives[k].Outstanding?
    ensures Matched(callers + [VClaim], natives + [F.Outstanding], ids + [|callers|])
  {
    hide Shown, Wholesome, Receives, Finished;
    ClaimsAreFresh();
    var after := callers + [VClaim];
    assert forall k :: 0 <= k < |callers| ==> after[k] == callers[k];
    var newer := ids + [|callers|];
    assert forall k :: 0 <= k < |ids| ==> newer[k] == ids[k];
    assert newer[|ids|] == |callers|;
    forall i | 0 <= i < |after| && Receives(after[i]) ensures i in newer {
      if i < |callers| {
        assert Receives(callers[i]);
      }
    }
  }

  lemma ClaimsAreFresh()
    ensures Receives(VClaim) && Wholesome(VClaim)
  {
  }

  lemma NewReceiveTellsNothing(callers: seq<Caller>, natives: seq<F.Native>, ids: seq<nat>)
    requires Matched(callers, natives, ids)
    ensures Told(callers + [VClaim], ids + [|callers|]) == Told(callers, ids)
  {
    hide Shown, Wholesome, Receives, Finished;
    ToldAgrees(callers, callers + [VClaim], ids);
    ToldSnoc(callers + [VClaim], ids, |callers|);
    assert Told(callers, ids) + [] == Told(callers, ids);
  }

  lemma DriverKeepsAgreement(j: Joint, a: Action, j': Joint)
    requires Agrees(j) && JointNext(j, DriverActs(a), j') && Undisturbed(j, DriverActs(a))
    ensures Agrees(j')
  {
    hide CloseStep, BeginCloseStep, AborterStep, AdmitStep, SendStep, ClaimStep, ReceiveStep, Quiet, F.Exact, Sound;
    hide ReaderStep, WriterStep, DogStep, ReaderEdge, WriterEdge, DogEdge, ReaderEffect, WriterEffect, DogEffect;
    hide Matched, Told, Receives;
    StepIsSound(j.driver, a, j'.driver);
    if a.CallerActs? {
      CallerKeepsMatch(j, a.i, a.ce, j'.driver);
    } else {
      Traffic.StepReturns(j.driver, a, j'.driver);
      match a {
        case ReaderActs(ev) => ReaderSummarized(j.driver, ev, j'.driver);
        case WriterActs(ev) => WriterSummarized(j.driver, ev, j'.driver);
        case DogActs(k, ev) => DogSummarized(j.driver, k, ev, j'.driver);
        case CallStarts(c) =>
          FreshOthersDoNotReceive(c);
          NewCallMatches(j.driver.callers, j.facade.natives, j.ids, c);
        case HandleDrops =>
          FreshOthersDoNotReceive(AStore(true));
          NewCallMatches(j.driver.callers, j.facade.natives, j.ids, AStore(true));
        case _ =>
      }
    }
  }

  lemma FreshOthersDoNotReceive(p: Caller)
    requires (CallerFresh(p) && p != VClaim) || p == AStore(true)
    ensures !Receives(p)
  {
  }

  // ----- the facade's steps -----

  lemma StartKeepsAgreement(j: Joint, j': Joint)
    requires Agrees(j) && JointNext(j, StartsNative, j')
    ensures Agrees(j')
  {
    hide Matched, Told, Sound, F.Exact;
    StepIsSound(j.driver, CallStarts(VClaim), j'.driver);
    F.EventKeepsExact(j.facade, F.Calls);
    F.DropsExactlyThen(j.facade, F.Calls);
    NothingOutstanding(j.facade);
    NewReceiveMatches(j.driver.callers, j.facade.natives, j.ids);
    NewReceiveTellsNothing(j.driver.callers, j.facade.natives, j.ids);
  }

  lemma NothingOutstanding(f: F.Facade)
    requires F.Exact(f) && f.dropped == {} && !F.Retains(f)
    ensures forall k :: 0 <= k < |f.natives| ==> !f.natives[k].Outstanding?
  {
  }

  lemma NothingIsLetGo(j: Joint, e: F.Event)
    requires Agrees(j) && !e.Interrupts?
    ensures !F.LetsGo(j.facade, e)
  {
    hide Sound, F.Exact, Told, Receives;
    if F.Retains(j.facade) {
      var k := j.facade.pending.value;
      assert j.facade.natives[k].Outstanding? || j.facade.natives[k] == Shown(j.driver.callers[j.ids[k]].received);
    }
  }

  lemma FacadeKeepsAgreement(j: Joint, e: F.Event, j': Joint)
    requires Agrees(j) && JointNext(j, FacadeActs(e), j') && Undisturbed(j, FacadeActs(e))
    ensures Agrees(j')
  {
    hide Sound, F.Exact, Told, Matched, F.LetsGo, F.Leave, F.LetGo;
    F.EventKeepsExact(j.facade, e);
    F.DropsExactlyThen(j.facade, e);
    NothingIsLetGo(j, e);
    SettlingMatches(j, e);
  }

  lemma SettlingMatches(j: Joint, e: F.Event)
    requires Agrees(j) && !e.CancelsNative? && (e.Completes? ==> Settles(j, e.k, e.n))
    requires e.Calls? ==> j.facade.active || F.Retains(j.facade)
    ensures Matched(j.driver.callers, F.Apply(j.facade, e).natives, j.ids)
  {
    hide Sound, F.Exact, Told, Receives;
  }

  // ----- the run -----

  lemma FirstAgrees(j: Joint)
    requires Init(j.driver) && j.facade == F.FRESH && j.ids == []
    ensures Agrees(j) && j.driver.log.taken == []
  {
    hide Sound;
    InitIsSound(j.driver);
    NothingYet(j.driver);
    hide Init;
  }

  lemma NothingYet(s: State)
    requires Init(s)
    ensures s.callers == [] && s.log.returned == [] && s.log.taken == []
  {
  }

  lemma {:induction false} JointRunAgrees(joints: seq<Joint>, labels: seq<Label>, k: nat)
    requires JointRun(joints, labels) && k < |joints|
    ensures Agrees(joints[k])
  {
    hide Init, JointNext, Undisturbed, Agrees;
    if k == 0 {
      FirstAgrees(joints[0]);
    } else {
      JointRunAgrees(joints, labels, k - 1);
      match labels[k - 1] {
        case DriverActs(a) => DriverKeepsAgreement(joints[k - 1], a, joints[k]);
        case StartsNative => StartKeepsAgreement(joints[k - 1], joints[k]);
        case FacadeActs(e) => FacadeKeepsAgreement(joints[k - 1], e, joints[k]);
      }
    }
  }

  // The data messages that came off the wire.
  function OffTheWire(labels: seq<Label>): seq<InboundMessage> {
    if labels == [] then []
    else
      OffTheWire(labels[..|labels| - 1]) +
      match labels[|labels| - 1]
      case DriverActs(ReaderActs(RWire(Data(m)))) => [m]
      case _ => []
  }

  lemma {:induction false} TakenIsOffTheWire(joints: seq<Joint>, labels: seq<Label>, k: nat)
    requires JointRun(joints, labels) && k < |joints|
    ensures joints[k].driver.log.taken == OffTheWire(labels[..k])
  {
    hide Init, Undisturbed, Agrees, Next;
    if k == 0 {
      FirstAgrees(joints[0]);
    } else {
      TakenIsOffTheWire(joints, labels, k - 1);
      assert labels[..k][..k - 1] == labels[..k - 1];
      match labels[k - 1] {
        case DriverActs(a) => Traffic.StepTakes(joints[k - 1].driver, a, joints[k].driver);
        case StartsNative => Traffic.StepTakes(joints[k - 1].driver, CallStarts(VClaim), joints[k].driver);
        case FacadeActs(_) =>
      }
    }
  }

  lemma MessagesSnoc(natives: seq<F.Native>, n: F.Native)
    ensures Messages(natives + [n]) == Messages(natives) + if n.Message? then [n.m] else []
  {
    assert (natives + [n])[..|natives|] == natives;
  }

  lemma {:induction false} SettledTell(callers: seq<Caller>, natives: seq<F.Native>, ids: seq<nat>)
    requires |ids| == |natives| && forall k :: 0 <= k < |ids| ==> ids[k] < |callers|
    requires forall k :: 0 <= k < |ids| ==>
               callers[ids[k]].ReceiveDone? && natives[k] == Shown(callers[ids[k]].received)
    ensures Messages(natives) == Told(callers, ids)
  {
    if ids == [] {
    } else {
      SettledTell(callers, natives[..|ids| - 1], ids[..|ids| - 1]);
    }
  }

  // What has been shown is what the driver's calls have told, but for the
  // newest one.
  lemma ShownIsTold(callers: seq<Caller>, natives: seq<F.Native>, ids: seq<nat>)
    requires Matched(callers, natives, ids) && ids != []
    ensures var last := |ids| - 1;
            Told(callers, ids) == Messages(natives[..last]) + ToldBy(callers[ids[last]])
    ensures Messages(natives[..|ids| - 1]) <= Messages(natives) <= Told(callers, ids)
  {
    hide Receives, Wholesome, Told, Messages;
    var last := |ids| - 1;
    SettledTell(callers, natives[..last], ids[..last]);
    assert ids == ids[..last] + [ids[last]] && natives == natives[..last] + [natives[last]];
    ToldSnoc(callers, ids[..last], ids[last]);
    MessagesSnoc(natives[..last], natives[last]);
  }

  lemma GivenIsShown(f: F.Facade)
    requires F.Exact(f) && f.dropped == {}
    ensures F.Lossless(f)
    ensures f.given == f.natives || (f.natives != [] && f.given == f.natives[..|f.natives| - 1])
  {
    F.LosslessWithoutDrops(f);
  }

  // With every receive of the driver finished nothing is held.
  lemma NothingHeld(s: State)
    requires Delivering(s) && forall i :: 0 <= i < |s.callers| && Receives(s.callers[i]) ==> s.callers[i].ReceiveDone?
    ensures |s.log.popped| == |s.log.returned|
  {
    hide InboundBytes, Reading, HandsHoldLast, Exhausted, HandleGone, Receives;
    if s.inq.active {
      var i := SomebodyIsPast(s);
      PastReceives(s.callers[i]);
    }
  }

  lemma OneOnItsWay(j: Joint)
    requires Agrees(j)
    ensures Messages(j.facade.given) <= j.driver.log.returned
    ensures |j.driver.log.popped| <= |Messages(j.facade.given)| + 1
  {
    hide Sound, F.Exact, Told, Messages, Receives, Wholesome, Delivering;
    var s := j.driver;
    SoundDelivers(s);
    GivenIsShown(j.facade);
    DeliveryIsPrefix(s);
    if j.ids == [] {
      NothingHeld(s);
      assert Told(s.callers, j.ids) == [] && Messages(j.facade.given) == [] by { EmptyTellsNothing(s.callers); }
    } else {
      ShownIsTold(s.callers, j.facade.natives, j.ids);
      var newest := s.callers[j.ids[|j.ids| - 1]];
      if newest.ReceiveDone? {
        forall i | 0 <= i < |s.callers| && Receives(s.callers[i]) ensures s.callers[i].ReceiveDone? {
          if !s.callers[i].ReceiveDone? {
            OnlyNewestWorks(s.callers, j.facade.natives, j.ids, i);
          }
        }
        NothingHeld(s);
      }
    }
  }

  lemma EmptyTellsNothing(callers: seq<Caller>)
    ensures Told(callers, []) == [] && Messages([]) == []
  {
  }

  // From the wire to Python: the messages that receive() calls return are, in
  // order and without repeats, a prefix of the data messages off the wire, and
  // however many waiting calls are cancelled, at most one message that has left
  // the driver's queue has not been returned yet.
  lemma PythonReceivesAPrefix(joints: seq<Joint>, labels: seq<Label>, k: nat)
    requires JointRun(joints, labels) && k < |joints|
    ensures var j := joints[k];
            && Messages(j.facade.given) <= j.driver.log.popped <= OffTheWire(labels[..k])
            && |j.driver.log.popped| <= |Messages(j.facade.given)| + 1
            && F.Lossless(j.facade)
  {
    hide Init, JointNext, Undisturbed, OffTheWire, Told, Messages, Matched, F.Exact, F.Lossless, Sound, Delivering;
    JointRunAgrees(joints, labels, k);
    TakenIsOffTheWire(joints, labels, k);
    OneOnItsWay(joints[k]);
    GivenIsShown(joints[k].facade);
    SoundDelivers(joints[k].driver);
    DeliveryIsPrefix(joints[k].driver);
  }

  // And the driver never refuses the facade for a concurrent receive.
  lemma DriverNeverRefuses(joints: seq<Joint>, labels: seq<Label>, k: nat, i: nat)
    requires JointRun(joints, labels) && k < |joints| && i < |joints[k].driver.callers|
    ensures joints[k].driver.callers[i].ReceiveDone? ==> !joints[k].driver.callers[i].received.ReceiveRejected?
  {
    hide Init, JointNext, Undisturbed, Told, F.Exact, Sound;
    JointRunAgrees(joints, labels, k);
    var j := joints[k];
    if j.driver.callers[i].ReceiveDone? {
      var n :| 0 <= n < |j.ids| && j.ids[n] == i;
    }
  }
}
