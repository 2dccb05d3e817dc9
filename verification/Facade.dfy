// The retained receive of the Python facade (fogws/client.py): a native receive
// that outlives a cancelled waiter is kept and handed to the next one.
module Facade {
  import opened Errors
  import opened Lanes

  // A native receive, as its asyncio future shows it.
  datatype Native =
    | Outstanding
    | Message(m: InboundMessage)
    | Failed(error: DriverError)
    | CancelledDirectly

  predicate HasResult(n: Native) { n.Message? || n.Failed? }

  // What awaiting the shielded future does to the waiter. Interrupted: another
  // exception is thrown into the suspended call, as when its coroutine is closed.
  datatype Awaited = Delivers(m: InboundMessage) | Raises(error: DriverError) | RaisesCancelled | Interrupted

  // What a receive() call ends with, or that it is suspended.
  datatype Answer =
    | Returns(m: InboundMessage)
    | Throws(error: DriverError)
    | ThrowsCancelled
    | ThrowsInterrupt
    | ThrowsConcurrency
    | Suspended

  // natives: the receives started so far; given: what calls have been given,
  // oldest first; dropped: receives let go without giving their result.
  datatype Facade = Facade(
    pending: Option<nat>, active: bool, inside: bool, natives: seq<Native>, given: seq<Native>, dropped: set<nat>)

  datatype Event =
    | Calls                                   // receive() is called and the native receive starts
    | CallsAndStartFails(error: DriverError)  // the native receive raises at once
    | Completes(k: nat, n: Native)            // an outstanding native receive ends with a result
    | CancelsNative(k: nat)                   // somebody cancels a native future itself
    | Resumes                                 // the suspended call is resumed with the outcome
    | CancelsWaiter                           // the suspended call is cancelled
    | Interrupts                              // any other exception is thrown into the suspended call

  const FRESH := Facade(None, false, false, [], [], {})

  function Await(n: Native): Awaited
    requires !n.Outstanding?
  {
    match n
    case Message(m) => Delivers(m)
    case Failed(e) => Raises(e)
    case CancelledDirectly => RaisesCancelled
  }

  // The future the facade retains.
  predicate Retains(f: Facade) { f.pending.Some? && f.pending.value < |f.natives| }

  function RetainedNative(f: Facade): Native
    requires Retains(f)
  {
    f.natives[f.pending.value]
  }

  predicate AwaitsOutstanding(f: Facade) { f.inside && Retains(f) && RetainedNative(f).Outstanding? }

  // The retained future is let go with nobody given its result.
  function LetGo(f: Facade): Facade
    requires Retains(f)
  {
    f.(pending := None, active := false, inside := false, dropped := f.dropped + {f.pending.value})
  }

  // A call that learns the outcome of the retained future leaves with it.
  function Leave(f: Facade): Facade
    requires Retains(f)
  {
    if HasResult(RetainedNative(f))
    then f.(pending := None, active := false, inside := false, given := f.given + [RetainedNative(f)])
    else LetGo(f)
  }

  // A native receive comes to its end, whoever waits for it.
  function EndNative(f: Facade, k: nat, n: Native): Facade {
    if k < |f.natives| && f.natives[k].Outstanding? && !n.Outstanding? then f.(natives := f.natives[k := n]) else f
  }

  function Apply(f: Facade, e: Event): Facade {
    match e
    case Calls =>
      if f.active then f
      else if !Retains(f) then
        f.(pending := Some(|f.natives|), active := true, inside := true, natives := f.natives + [Outstanding])
      else if RetainedNative(f).Outstanding? then f.(active := true, inside := true)
      else Leave(f)
    case CallsAndStartFails(_) =>
      if f.active then f
      else if !Retains(f) then f.(pending := None)
      else if RetainedNative(f).Outstanding? then f.(active := true, inside := true)
      else Leave(f)
    case Completes(k, n) => if HasResult(n) then EndNative(f, k, n) else f
    case CancelsNative(k) => EndNative(f, k, CancelledDirectly)
    case Resumes => if f.inside && Retains(f) && !RetainedNative(f).Outstanding? then Leave(f) else f
    case CancelsWaiter =>
      if !f.inside then f
      else if Retains(f) && RetainedNative(f).CancelledDirectly? then LetGo(f)
      else f.(active := false, inside := false)
    case Interrupts => if f.inside && Retains(f) then LetGo(f) else f
  }

  function ApplyAll(events: seq<Event>): Facade {
    if events == [] then FRESH else Apply(ApplyAll(events[..|events| - 1]), events[|events| - 1])
  }

  // The results of the native receives that were not dropped, in the order in
  // which they were started.
  function Results(natives: seq<Native>, dropped: set<nat>): seq<Native> {
    if natives == [] then []
    else
      var last := |natives| - 1;
      Results(natives[..last], dropped) + if HasResult(natives[last]) && last !in dropped then [natives[last]] else []
  }

  function Retained(f: Facade): seq<Native> {
    if Retains(f) && HasResult(RetainedNative(f)) then [RetainedNative(f)] else []
  }

  // The flag is set exactly while a call is inside, only the newest native
  // receive is retained, every other one has been given or dropped, and what
  // calls were given with what is retained are the results of all receives
  // that were not dropped, once each and in order.
  ghost predicate Exact(f: Facade) {
    && (f.active <==> f.inside)
    && (f.inside ==> Retains(f))
    && (f.pending.Some? ==> f.pending.value + 1 == |f.natives| && f.pending.value !in f.dropped)
    && (forall k :: k in f.dropped ==> k < |f.natives|)
    && (forall k :: 0 <= k < |f.natives| && k !in f.dropped && f.pending != Some(k) ==> HasResult(f.natives[k]))
    && f.given + Retained(f) == Results(f.natives, f.dropped)
  }

  lemma ResultsSnoc(natives: seq<Native>, n: Native, dropped: set<nat>)
    ensures Results(natives + [n], dropped) ==
            Results(natives, dropped) + if HasResult(n) && |natives| !in dropped then [n] else []
  {
  }

  // Only what happens to the receives themselves matters.
  lemma {:induction false} ResultsAgree(natives: seq<Native>, changed: seq<Native>, dropped: set<nat>, more: set<nat>)
    requires |natives| == |changed|
    requires forall k :: 0 <= k < |natives| ==>
               && (k in dropped || !HasResult(natives[k]) <==> k in more || !HasResult(changed[k]))
               && (k !in dropped && HasResult(natives[k]) ==> changed[k] == natives[k])
    ensures Results(natives, dropped) == Results(changed, more)
  {
    if natives == [] {
    } else {
      ResultsAgree(natives[..|natives| - 1], changed[..|natives| - 1], dropped, more);
    }
  }

  lemma SameTail(xs: seq<Native>, ys: seq<Native>, tail: seq<Native>)
    requires xs + tail == ys + tail
    ensures xs == ys
  {
    assert xs == (xs + tail)[..|xs|] && ys == (ys + tail)[..|ys|];
  }

  // What has been given comes from the receives before the retained one.
  lemma GivenBefore(f: Facade)
    requires Exact(f) && Retains(f)
    ensures f.given == Results(f.natives[..|f.natives| - 1], f.dropped)
  {
    var before := f.natives[..|f.natives| - 1];
    assert f.natives == before + [RetainedNative(f)];
    ResultsSnoc(before, RetainedNative(f), f.dropped);
    SameTail(f.given, Results(before, f.dropped), Retained(f));
  }

  lemma LettingGoKeepsExact(f: Facade)
    requires Exact(f) && Retains(f)
    ensures Exact(LetGo(f))
  {
    var g := LetGo(f);
    var before := f.natives[..|f.natives| - 1];
    assert f.natives == before + [RetainedNative(f)];
    ResultsSnoc(before, RetainedNative(f), g.dropped);
    ResultsAgree(before, before, f.dropped, g.dropped);
    GivenBefore(f);
    assert g.given + Retained(g) == g.given;
  }

  // A call leaves with the outcome of the retained future.
  lemma LeavingKeepsExact(f: Facade)
    requires Exact(f) && Retains(f) && !RetainedNative(f).Outstanding?
    ensures Exact(Leave(f))
  {
    if HasResult(RetainedNative(f)) {
      var g := Leave(f);
      assert g.given == f.given + Retained(f);
      assert g.given + [] == g.given;
    } else {
      LettingGoKeepsExact(f);
    }
  }

  lemma EndingKeepsExact(f: Facade, k: nat, n: Native)
    requires Exact(f)
    ensures Exact(EndNative(f, k, n))
  {
    if k < |f.natives| && f.natives[k].Outstanding? && !n.Outstanding? {
      var g := EndNative(f, k, n);
      if f.pending == Some(k) {
        var before := f.natives[..k];
        assert g.natives == before + [n];
        GivenBefore(f);
        ResultsSnoc(before, n, f.dropped);
      } else {
        ResultsAgree(f.natives, g.natives, f.dropped, g.dropped);
      }
    }
  }

  lemma EventKeepsExact(f: Facade, e: Event)
    requires Exact(f)
    ensures Exact(Apply(f, e))
  {
    hide Leave, LetGo, EndNative, HasResult, Results;
    if Retains(f) {
      LettingGoKeepsExact(f);
      if !RetainedNative(f).Outstanding? {
        LeavingKeepsExact(f);
      }
    }
    match e {
      case Calls =>
        ResultsSnoc(f.natives, Outstanding, f.dropped);
        NoResultYet();
      case CallsAndStartFails(_) =>
      case Completes(k, n) => EndingKeepsExact(f, k, n);
      case CancelsNative(k) => EndingKeepsExact(f, k, CancelledDirectly);
      case Resumes =>
      case CancelsWaiter =>
      case Interrupts =>
    }
  }

  lemma NoResultYet()
    ensures !HasResult(Outstanding) && !HasResult(CancelledDirectly)
  {
  }

  // Over every sequence of receives, completions, errors, cancellations and
  // interrupts.
  lemma {:induction false} ReceiveIsExact(events: seq<Event>)
    ensures Exact(ApplyAll(events))
  {
    if events == [] {
    } else {
      ReceiveIsExact(events[..|events| - 1]);
      EventKeepsExact(ApplyAll(events[..|events| - 1]), events[|events| - 1]);
    }
  }

  // ----- the flag and the answers -----

  // What a call is given by the future it awaits.
  function AnswerOf(n: Native): Answer {
    match n
    case Outstanding => Suspended
    case Message(m) => Returns(m)
    case Failed(e) => Throws(e)
    case CancelledDirectly => ThrowsCancelled
  }

  // What the call that an event concerns answers, if there is one.
  function AnswerTo(f: Facade, e: Event): Option<Answer> {
    match e
    case Calls =>
      Some(if f.active then ThrowsConcurrency else if Retains(f) then AnswerOf(RetainedNative(f)) else Suspended)
    case CallsAndStartFails(error) =>
      Some(if f.active then ThrowsConcurrency else if Retains(f) then AnswerOf(RetainedNative(f)) else Throws(error))
    case Resumes =>
      if f.inside && Retains(f) && !RetainedNative(f).Outstanding? then Some(AnswerOf(RetainedNative(f))) else None
    case CancelsWaiter => if f.inside then Some(ThrowsCancelled) else None
    case Interrupts => if f.inside then Some(ThrowsInterrupt) else None
    case _ => None
  }

  // By the answers alone: some call has been left suspended and has not
  // answered since. A refused call changes nothing about that.
  predicate Waiting(events: seq<Event>) {
    events != [] &&
    var last := |events| - 1;
    match AnswerTo(ApplyAll(events[..last]), events[last])
    case Some(Suspended) => true
    case Some(ThrowsConcurrency) => Waiting(events[..last])
    case None => Waiting(events[..last])
    case Some(_) => false
  }

  // The flag is set exactly while a call is suspended, so that a call is
  // refused only then: whatever a call ends with, the next one finds the flag
  // clear.
  lemma {:induction false} FlagFollowsAnswers(events: seq<Event>)
    ensures ApplyAll(events).active <==> Waiting(events)
    ensures AnswerTo(ApplyAll(events), Calls) == Some(ThrowsConcurrency) <==> Waiting(events)
  {
    if events == [] {
    } else {
      var last := |events| - 1;
      FlagFollowsAnswers(events[..last]);
      ReceiveIsExact(events[..last]);
      AnswersMoveFlag(ApplyAll(events[..last]), events[last]);
    }
    NoNativeAnswersConcurrency(ApplyAll(events));
  }

  lemma AnswersMoveFlag(f: Facade, e: Event)
    requires Exact(f)
    ensures Apply(f, e).active <==>
            match AnswerTo(f, e)
            case Some(Suspended) => true
            case Some(ThrowsConcurrency) => f.active
            case None => f.active
            case Some(_) => false
  {
    hide Results;
  }

  lemma NoNativeAnswersConcurrency(f: Facade)
    ensures AnswerTo(f, Calls) == Some(ThrowsConcurrency) <==> f.active
  {
  }

  // A cancelled call leaves its native receive to the next one: the next call
  // waits on it as the cancelled one did, or gets its result at once, unless
  // the native receive had been cancelled itself.
  lemma CancelledWaiterHandsOver(events: seq<Event>)
    requires ApplyAll(events).inside && !RetainedByCall(ApplyAll(events)).CancelledDirectly?
    ensures var f := ApplyAll(events);
            var next := ApplyAll(events + [CancelsWaiter, Calls]);
            && AnswerTo(ApplyAll(events + [CancelsWaiter]), Calls) == Some(AnswerOf(RetainedByCall(f)))
            && (if RetainedByCall(f).Outstanding? then next == f
                else next.given == f.given + [RetainedByCall(f)] && !next.active && next.pending.None?)
  {
    ReceiveIsExact(events);
    assert (events + [CancelsWaiter])[..|events|] == events;
    assert (events + [CancelsWaiter, Calls])[..|events| + 1] == events + [CancelsWaiter];
  }

  // The native receive of the call inside.
  function RetainedByCall(f: Facade): Native { if Retains(f) then RetainedNative(f) else Outstanding }

  // ----- when nothing is lost -----

  // At this event a receive is let go: an exception other than a cancellation
  // is thrown into the suspended call, or a call leaves with a future that
  // somebody cancelled directly.
  predicate LetsGo(f: Facade, e: Event) {
    || (e.Interrupts? && f.inside && Retains(f))
    || (Retains(f) && RetainedNative(f).CancelledDirectly?
        && (((e.Calls? || e.CallsAndStartFails?) && !f.active) || ((e.Resumes? || e.CancelsWaiter?) && f.inside)))
  }

  ghost predicate LetsNoneGo(events: seq<Event>) {
    forall k :: 0 <= k < |events| ==> !LetsGo(ApplyAll(events[..k]), events[k])
  }

  // Every native receive has been given to a call, in order, or is retained.
  ghost predicate Lossless(f: Facade) {
    f.natives == f.given + if Retains(f) then [RetainedNative(f)] else []
  }

  lemma DropsExactlyThen(f: Facade, e: Event)
    requires Exact(f)
    ensures f.dropped <= Apply(f, e).dropped
    ensures Apply(f, e).dropped != f.dropped <==> LetsGo(f, e)
  {
  }

  lemma {:induction false} DroppedIsLetGo(events: seq<Event>)
    ensures ApplyAll(events).dropped == {} <==> LetsNoneGo(events)
  {
    if events == [] {
    } else {
      hide Apply, LetsGo, LetsNoneGo, Exact;
      var n := |events| - 1;
      DroppedIsLetGo(events[..n]);
      ReceiveIsExact(events[..n]);
      DropsExactlyThen(ApplyAll(events[..n]), events[n]);
      NoneGoLast(events);
    }
  }

  lemma NoneGoLast(events: seq<Event>)
    requires events != []
    ensures var n := |events| - 1;
            LetsNoneGo(events) <==> LetsNoneGo(events[..n]) && !LetsGo(ApplyAll(events[..n]), events[n])
  {
    hide ApplyAll, LetsGo;
    var n := |events| - 1;
    assert forall k :: 0 <= k < n ==> events[..n][..k] == events[..k] && events[..n][k] == events[k];
  }

  lemma {:induction false} ResultsCount(natives: seq<Native>, dropped: set<nat>)
    ensures |Results(natives, dropped)| <= |natives|
    ensures Results(natives, dropped) == natives <==>
            forall k :: 0 <= k < |natives| ==> HasResult(natives[k]) && k !in dropped
    ensures |Results(natives, dropped)| == |natives| ==> Results(natives, dropped) == natives
  {
    if natives == [] {
    } else {
      var n := |natives| - 1;
      ResultsCount(natives[..n], dropped);
      assert natives == natives[..n] + [natives[n]];
    }
  }

  lemma LosslessWithoutDrops(f: Facade)
    requires Exact(f)
    ensures Lossless(f) <==> f.dropped == {}
  {
    hide Results, HasResult;
    if Retains(f) {
      var before := f.natives[..|f.natives| - 1];
      assert f.natives == before + [RetainedNative(f)];
      ResultsCount(before, f.dropped);
      GivenBefore(f);
      assert Lossless(f) <==> f.given == before by {
        if Lossless(f) {
          SameTail(before, f.given, [RetainedNative(f)]);
        }
      }
    } else {
      ResultsCount(f.natives, f.dropped);
      assert f.given + [] == f.given;
    }
  }

  // Nothing is lost if and only if no suspended call was interrupted by
  // anything but a cancellation and no directly cancelled future was let go.
  // Cancelling waiters, before or after completion, loses nothing.
  lemma LosslessExactly(events: seq<Event>)
    ensures Lossless(ApplyAll(events)) <==> LetsNoneGo(events)
  {
    ReceiveIsExact(events);
    LosslessWithoutDrops(ApplyAll(events));
    DroppedIsLetGo(events);
  }

  // ----- when at most one native receive is outstanding -----

  ghost predicate AtMostOne(f: Facade) {
    forall j, k :: 0 <= j < |f.natives| && 0 <= k < |f.natives|
                   && f.natives[j].Outstanding? && f.natives[k].Outstanding? ==>
      j == k
  }

  // An interrupt lets an outstanding receive go.
  predicate Abandons(f: Facade, e: Event) { e.Interrupts? && AwaitsOutstanding(f) }

  ghost predicate AbandonsNone(events: seq<Event>) {
    forall k :: 0 <= k < |events| ==> !Abandons(ApplyAll(events[..k]), events[k])
  }

  // Only the retained receive can be outstanding.
  ghost predicate Tidy(f: Facade) { forall k :: k in f.dropped && k < |f.natives| ==> !f.natives[k].Outstanding? }

  lemma EventKeepsTidy(f: Facade, e: Event)
    requires Exact(f) && Tidy(f) && !Abandons(f, e)
    ensures Tidy(Apply(f, e))
  {
  }

  lemma {:induction false} TidyWhileNoneAbandoned(events: seq<Event>)
    requires AbandonsNone(events)
    ensures Tidy(ApplyAll(events))
  {
    if events == [] {
    } else {
      var n := |events| - 1;
      var before := events[..n];
      assert forall k :: 0 <= k < n ==> before[..k] == events[..k] && before[k] == events[k];
      TidyWhileNoneAbandoned(before);
      ReceiveIsExact(before);
      EventKeepsTidy(ApplyAll(before), events[n]);
    }
  }

  lemma TidyMeansOne(f: Facade)
    requires Exact(f) && Tidy(f)
    ensures AtMostOne(f) && AtMostOne(Apply(f, Calls))
  {
    EventKeepsExact(f, Calls);
    EventKeepsTidy(f, Calls);
  }

  // An abandoned receive is still outstanding when the next call starts one.
  lemma AbandoningMeansTwo(f: Facade)
    requires Exact(f) && AwaitsOutstanding(f)
    ensures !AtMostOne(Apply(Apply(f, Interrupts), Calls))
  {
    var p := f.pending.value;
    var g := Apply(Apply(f, Interrupts), Calls);
    assert g.natives == f.natives + [Outstanding];
    assert g.natives[p].Outstanding? && g.natives[p + 1].Outstanding?;
  }

  // At most one native receive is outstanding, now and whenever another call
  // comes, if and only if no interrupt has let an outstanding one go. Without
  // interrupts the driver never refuses the facade for a concurrent receive.
  lemma OneNativeReceive(events: seq<Event>)
    ensures AbandonsNone(events) <==> forall k :: 0 <= k <= |events| ==> AtMostOne(ApplyAll(events[..k] + [Calls]))
    ensures AbandonsNone(events) ==> AtMostOne(ApplyAll(events))
  {
    hide ApplyAll, Apply, Abandons, AtMostOne;
    if AbandonsNone(events) {
      forall k | 0 <= k <= |events| ensures AtMostOne(ApplyAll(events[..k] + [Calls])) {
        OneAtNextCall(events, k);
      }
      OneAtNextCall(events, |events|);
      assert events[..|events|] == events;
    } else {
      var k :| 0 <= k < |events| && Abandons(ApplyAll(events[..k]), events[k]);
      TwoAtNextCall(events, k);
      assert 0 <= k + 1 <= |events|;
    }
  }

  lemma OneAtNextCall(events: seq<Event>, k: nat)
    requires AbandonsNone(events) && k <= |events|
    ensures AtMostOne(ApplyAll(events[..k])) && AtMostOne(ApplyAll(events[..k] + [Calls]))
  {
    hide Apply, Abandons, AtMostOne;
    var some := events[..k];
    assert forall j :: 0 <= j < k ==> some[..j] == events[..j] && some[j] == events[j];
    TidyWhileNoneAbandoned(some);
    ReceiveIsExact(some);
    TidyMeansOne(ApplyAll(some));
    assert (some + [Calls])[..k] == some;
  }

  lemma TwoAtNextCall(events: seq<Event>, k: nat)
    requires k < |events| && Abandons(ApplyAll(events[..k]), events[k])
    ensures !AtMostOne(ApplyAll(events[..k + 1] + [Calls]))
  {
    hide Apply, AtMostOne;
    ReceiveIsExact(events[..k]);
    AbandoningMeansTwo(ApplyAll(events[..k]));
    assert events[..k + 1][..k] == events[..k];
    assert (events[..k + 1] + [Calls])[..k + 1] == events[..k + 1];
  }

  // The input at which it fails, with nothing cancelled at all: a suspended
  // call is closed, the next one starts a second native receive, and the message
  // of the first reaches nobody.
  lemma ClosedCallLosesItsReceive(m: InboundMessage)
    ensures var f := ApplyAll([Calls, Interrupts, Calls]);
            f.natives == [Outstanding, Outstanding] && f.pending == Some(1) && f.dropped == {0}
    ensures var f := ApplyAll([Calls, Interrupts, Calls, Completes(0, Message(m))]);
            f.natives == [Message(m), Outstanding] && f.given == [] && Retained(f) == [] && !Lossless(f)
  {
    var e1, e2, e3 := [Calls], [Calls, Interrupts], [Calls, Interrupts, Calls];
    var e4 := [Calls, Interrupts, Calls, Completes(0, Message(m))];
    assert e1[..0] == [] && e2[..1] == e1 && e3[..2] == e2 && e4[..3] == e3;
    assert ApplyAll(e1) == Facade(Some(0), true, true, [Outstanding], [], {});
    assert ApplyAll(e2) == Facade(None, false, false, [Outstanding], [], {0});
    assert ApplyAll(e3) == Facade(Some(1), true, true, [Outstanding, Outstanding], [], {0});
  }

  // ----- the facade as an object -----

  class Connection {
    var pendingReceive: Option<nat>
    var receiveWaiterActive: bool
    var natives: seq<Native>
    ghost var inside: bool
    ghost var given: seq<Native>
    ghost var dropped: set<nat>

    ghost function Contents(): Facade reads this {
      Facade(pendingReceive, receiveWaiterActive, inside, natives, given, dropped)
    }

    ghost predicate Valid() reads this { Exact(Contents()) }

    constructor ()
      ensures Valid() && Contents() == FRESH
    {
      pendingReceive, receiveWaiterActive, natives, inside, given, dropped := None, false, [], false, [], {};
    }

    // _claim_receive_waiter
    method ClaimReceiveWaiter() returns (refused: bool)
      modifies this`receiveWaiterActive
      ensures refused == old(receiveWaiterActive) && receiveWaiterActive
    {
      refused := receiveWaiterActive;
      receiveWaiterActive := true;
    }

    // receive() up to its await. The await of a future that is already done
    // does not suspend.
    method Receive(startError: Option<DriverError>) returns (answer: Answer)
      requires Valid()
      modifies this
      ensures Valid()
      ensures Contents() == Apply(old(Contents()),
                                if startError.None? then Calls else CallsAndStartFails(startError.value))
      ensures answer.ThrowsConcurrency? <==> old(receiveWaiterActive)
      ensures answer.Suspended? <==> inside && !old(inside)
      ensures Some(answer) == AnswerTo(old(Contents()),
                                       if startError.None? then Calls else CallsAndStartFails(startError.value))
      ensures !answer.Suspended? && !answer.ThrowsConcurrency? ==> !inside && !receiveWaiterActive
      ensures answer.Returns? ==> given == old(given) + [Message(answer.m)]
      ensures answer.Throws? ==>
                given == old(given) + [Failed(answer.error)]
                  || (given == old(given) && startError == Some(answer.error))
      ensures !answer.Returns? && !answer.Throws? ==> given == old(given)
    {
      EventKeepsExact(Contents(), if startError.None? then Calls else CallsAndStartFails(startError.value));
      var refused := ClaimReceiveWaiter();
      if refused {
        return ThrowsConcurrency;
      }
      inside := true;
      var pending := pendingReceive;
      if pending.None? {
        if startError.Some? {
          // except BaseException, finally
          pendingReceive := None;
          receiveWaiterActive, inside := false, false;
          return Throws(startError.value);
        }
        pending := Some(|natives|);
        natives := natives + [Outstanding];
        pendingReceive := pending;
      }
      if natives[pending.value].Outstanding? {
        return Suspended;
      }
      answer := Finish(pending.value, Await(natives[pending.value]));
    }

    // receive() from its await on, with what the await has done.
    method Finish(pending: nat, awaited: Awaited) returns (answer: Answer)
      requires inside && receiveWaiterActive && pendingReceive == Some(pending) && pending < |natives|
      requires awaited.Delivers? || awaited.Raises? ==>
               !natives[pending].Outstanding? && awaited == Await(natives[pending])
      modifies this
      ensures natives == old(natives) && !inside && !receiveWaiterActive
      ensures pendingReceive ==
              if awaited.RaisesCancelled? && !natives[pending].CancelledDirectly? then Some(pending) else None
      ensures given == if awaited.Delivers? || awaited.Raises? then old(given) + [natives[pending]] else old(given)
      ensures dropped == if awaited.Interrupted? || (awaited.RaisesCancelled? && natives[pending].CancelledDirectly?)
                         then old(dropped) + {pending} else old(dropped)
      ensures match awaited
              case Delivers(m) => answer == Returns(m)
              case Raises(e) => answer == Throws(e)
              case RaisesCancelled => answer == ThrowsCancelled
              case Interrupted => answer == ThrowsInterrupt
    {
      match awaited {
        case RaisesCancelled =>
          if natives[pending].CancelledDirectly? {
            pendingReceive, dropped := None, dropped + {pending};
          }
          answer := ThrowsCancelled;
        case Raises(e) =>
          pendingReceive := None;
          answer := Throws(e);
          given := given + [natives[pending]];
        case Interrupted =>
          // except BaseException
          pendingReceive, dropped := None, dropped + {pending};
          answer := ThrowsInterrupt;
        case Delivers(m) =>
          pendingReceive := None;
          answer := Returns(m);
          given := given + [natives[pending]];
      }
      // finally
      receiveWaiterActive, inside := false, false;
    }

    // The event loop settles an outstanding native receive.
    method NativeEnds(k: nat, n: Native)
      requires Valid() && k < |natives| && natives[k].Outstanding? && !n.Outstanding?
      modifies this`natives
      ensures Valid()
      ensures Contents() == Apply(old(Contents()), if HasResult(n) then Completes(k, n) else CancelsNative(k))
    {
      EndingKeepsExact(Contents(), k, n);
      natives := natives[k := n];
    }

    // The loop resumes the suspended call once the future is done.
    method Resume() returns (answer: Answer)
      requires Valid() && inside && !natives[pendingReceive.value].Outstanding?
      modifies this
      ensures Valid() && Contents() == Apply(old(Contents()), Resumes)
      ensures !inside && !receiveWaiterActive && pendingReceive.None? && natives == old(natives)
      ensures match old(natives[pendingReceive.value])
              case Message(m) => answer == Returns(m) && given == old(given) + [Message(m)]
              case Failed(e) => answer == Throws(e) && given == old(given) + [Failed(e)]
              case _ => answer == ThrowsCancelled && given == old(given)
    {
      EventKeepsExact(Contents(), Resumes);
      answer := Finish(pendingReceive.value, Await(natives[pendingReceive.value]));
    }

    // The suspended call is cancelled, before or after the future is done.
    method CancelWaiter() returns (answer: Answer)
      requires Valid() && inside
      modifies this
      ensures Valid() && Contents() == Apply(old(Contents()), CancelsWaiter)
      ensures answer == ThrowsCancelled && given == old(given) && natives == old(natives)
      ensures !inside && !receiveWaiterActive
      ensures pendingReceive ==
              if old(natives[pendingReceive.value]).CancelledDirectly? then None else old(pendingReceive)
    {
      EventKeepsExact(Contents(), CancelsWaiter);
      answer := Finish(pendingReceive.value, RaisesCancelled);
    }

    // Another exception is thrown into the suspended call.
    method Interrupt() returns (answer: Answer)
      requires Valid() && inside
      modifies this
      ensures Valid() && Contents() == Apply(old(Contents()), Interrupts)
      ensures answer == ThrowsInterrupt && given == old(given) && pendingReceive.None? && natives == old(natives)
      ensures !inside && !receiveWaiterActive
    {
      EventKeepsExact(Contents(), Interrupts);
      answer := Finish(pendingReceive.value, Interrupted);
    }
  }
}
