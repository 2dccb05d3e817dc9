// The shared cells of the driver (src/driver.rs): the DriverState and
// ShutdownSignal watch cells with their publishers, and the task counter with
// its guards. Each method of a cell is proved against the function of the same
// name, and those functions are the atomic steps of module Machine.
module Cells {
  import opened Errors

  datatype DriverState =
    | Open
    | Closing
    | PeerClosed(outcome: DriverError)
    | Closed(outcome: DriverError)

  datatype ShutdownSignal = Running | LocalClose | PeerClose | Abort

  // Watch cells: a value, and how often it has been modified. A receiver
  // remembers the version it has seen and is woken when the cell has moved on.
  datatype StateCell = StateCell(value: DriverState, version: nat)

  datatype SignalCell = SignalCell(value: ShutdownSignal, version: nat)

  datatype CountCell = CountCell(value: nat, version: nat)

  // send_if_modified: the version moves only when the value does.
  function PutState(w: StateCell, d: DriverState): StateCell {
    if d == w.value then w else StateCell(d, w.version + 1)
  }

  function PutSignal(w: SignalCell, g: ShutdownSignal): SignalCell {
    if g == w.value then w else SignalCell(g, w.version + 1)
  }

  // send_modify
  function PutCount(w: CountCell, n: nat): CountCell { CountCell(n, w.version + 1) }

  const TIMED_OUT := Transport("WebSocket close timed out")

  // ----- DriverState publishers -----

  function BeginClose(d: DriverState): DriverState {
    if d.Open? then Closing else d
  }

  function PublishTerminal(d: DriverState, terminal: DriverError): DriverState {
    if d.Closed? then d else Closed(terminal)
  }

  function PublishPeerClosed(d: DriverState, outcome: DriverError): DriverState {
    if d.Closed? || d.PeerClosed? then d else PeerClosed(outcome)
  }

  // The value a writer failure reports: an outcome already known wins.
  function FailureValue(d: DriverState, error: DriverError): DriverError {
    if d.Closed? || d.PeerClosed? then d.outcome else error
  }

  function PublishWriterFailure(d: DriverState, error: DriverError): DriverState {
    if d.Closed? then d else Closed(FailureValue(d, error))
  }

  function PublishCloseTimeout(d: DriverState): DriverState {
    match d
    case Closed(_) => d
    case PeerClosed(outcome) => Closed(outcome)
    case _ => Closed(TIMED_OUT)
  }

  // What a caller reads when a queue or a reply channel has gone away.
  function TerminalError(d: DriverState): DriverError {
    match d
    case Closed(error) => error
    case PeerClosed(error) => error
    case Closing => ClosedOk(LOCAL_NORMAL)
    case Open => Transport("connection driver stopped unexpectedly")
  }

  // ----- ShutdownSignal publishers -----

  function SignalAbort(g: ShutdownSignal): ShutdownSignal { Abort }

  function SignalLocalClose(g: ShutdownSignal): ShutdownSignal {
    if g.Running? then LocalClose else g
  }

  function SignalPeerClose(g: ShutdownSignal): ShutdownSignal {
    if g.Running? || g.LocalClose? then PeerClose else g
  }

  // ----- the two orders -----

  function StateRank(d: DriverState): nat {
    match d case Open => 0 case Closing => 1 case PeerClosed(_) => 2 case Closed(_) => 3
  }

  function SignalRank(g: ShutdownSignal): nat {
    match g case Running => 0 case LocalClose => 1 case PeerClose => 2 case Abort => 3
  }

  // d may become e: e is d, or lies above it. A peer outcome can only be
  // followed by Closed, and Closed is final.
  predicate StateMoves(d: DriverState, e: DriverState) {
    d == e || StateRank(d) < StateRank(e)
  }

  predicate SignalMoves(g: ShutdownSignal, h: ShutdownSignal) {
    g == h || SignalRank(g) < SignalRank(h)
  }

  // ----- the publishers as one register -----

  datatype Publication =
    | BeginsClose
    | PeerCloses(outcome: DriverError)
    | Terminates(error: DriverError)
    | WriterFails(error: DriverError)
    | TimesOut

  function Publish(d: DriverState, p: Publication): DriverState {
    match p
    case BeginsClose => BeginClose(d)
    case PeerCloses(o) => PublishPeerClosed(d, o)
    case Terminates(e) => PublishTerminal(d, e)
    case WriterFails(e) => PublishWriterFailure(d, e)
    case TimesOut => PublishCloseTimeout(d)
  }

  function PublishAll(d: DriverState, ps: seq<Publication>): DriverState {
    if ps == [] then d else Publish(PublishAll(d, ps[..|ps| - 1]), ps[|ps| - 1])
  }

  predicate Terminal(p: Publication) { p.Terminates? || p.WriterFails? || p.TimesOut? }

  // The first position of a terminal publication, or the length.
  function FirstTerminal(ps: seq<Publication>): (k: nat)
    ensures k <= |ps|
    ensures forall i :: 0 <= i < k ==> !Terminal(ps[i])
    ensures k < |ps| ==> Terminal(ps[k])
  {
    if ps == [] then 0 else if Terminal(ps[0]) then 0 else 1 + FirstTerminal(ps[1..])
  }

  function FirstPeer(ps: seq<Publication>): (k: nat)
    ensures k <= |ps|
    ensures forall i :: 0 <= i < k ==> !ps[i].PeerCloses?
    ensures k < |ps| ==> ps[k].PeerCloses?
  {
    if ps == [] then 0 else if ps[0].PeerCloses? then 0 else 1 + FirstPeer(ps[1..])
  }

  // The declarative rule. The first terminal publication decides the value: an
  // explicit terminal value stands as it is, a failure or a timeout yields to
  // the first peer outcome published before it.
  function Register(ps: seq<Publication>): DriverState {
    var t := FirstTerminal(ps);
    var q := FirstPeer(ps);
    if t < |ps| then
      if ps[t].Terminates? then Closed(ps[t].error)
      else if q < t then Closed(ps[q].outcome)
      else if ps[t].WriterFails? then Closed(ps[t].error)
      else Closed(TIMED_OUT)
    else if q < |ps| then PeerClosed(ps[q].outcome)
    else if ps == [] then Open
    else Closing
  }

  lemma {:induction false} FirstTerminalOfPrefix(ps: seq<Publication>, k: nat)
    requires k <= |ps|
    ensures FirstTerminal(ps[..k]) == if FirstTerminal(ps) < k then FirstTerminal(ps) else k
  {
  }

  lemma {:induction false} FirstPeerOfPrefix(ps: seq<Publication>, k: nat)
    requires k <= |ps|
    ensures FirstPeer(ps[..k]) == if FirstPeer(ps) < k then FirstPeer(ps) else k
  {
  }

  // Any interleaving of publications leaves the cell as the rule says.
  lemma {:induction false} PublishersRefineRegister(ps: seq<Publication>)
    ensures PublishAll(Open, ps) == Register(ps)
  {
    if ps == [] {
    } else {
      var n := |ps| - 1;
      PublishersRefineRegister(ps[..n]);
      FirstTerminalOfPrefix(ps, n);
      FirstPeerOfPrefix(ps, n);
    }
  }

  // Once a terminal publication is in, nothing published later changes the cell.
  lemma {:induction false} FirstTerminalDecides(ps: seq<Publication>, k: nat)
    requires FirstTerminal(ps) < k <= |ps|
    ensures PublishAll(Open, ps) == PublishAll(Open, ps[..k])
    ensures PublishAll(Open, ps).Closed?
  {
    PublishersRefineRegister(ps);
    PublishersRefineRegister(ps[..k]);
    FirstTerminalOfPrefix(ps, k);
    FirstPeerOfPrefix(ps, k);
  }

  // ----- the cells as objects -----

  class StateWatch {
    var value: DriverState
    var version: nat

    function Read(): StateCell reads this { StateCell(value, version) }

    constructor ()
      ensures Read() == StateCell(Open, 0)
    {
      value, version := Open, 0;
    }

    // watch::Sender::send_if_modified: receivers are notified only of a change.
    method Store(next: DriverState)
      modifies this
      ensures Read() == StateCell(next, old(version) + 1)
    {
      value, version := next, version + 1;
    }

    method BeginCloseIfOpen() returns (started: bool)
      modifies this
      ensures Read() == PutState(old(Read()), BeginClose(old(value)))
      ensures started <==> Read() != old(Read())
    {
      started := value.Open?;
      if started {
        Store(Closing);
      }
    }

    method PublishTerminalValue(terminal: DriverError)
      modifies this
      ensures Read() == PutState(old(Read()), PublishTerminal(old(value), terminal))
    {
      if !value.Closed? {
        Store(Closed(terminal));
      }
    }

    method PublishPeer(outcome: DriverError)
      modifies this
      ensures Read() == PutState(old(Read()), PublishPeerClosed(old(value), outcome))
    {
      if !value.Closed? && !value.PeerClosed? {
        Store(PeerClosed(outcome));
      }
    }

    // The returned value is always the one the cell ends up with.
    method PublishFailure(error: DriverError) returns (terminal: DriverError)
      modifies this
      ensures Read() == PutState(old(Read()), PublishWriterFailure(old(value), error))
      ensures value == Closed(terminal)
    {
      match value {
        case Closed(outcome) =>
          terminal := outcome;
        case PeerClosed(outcome) =>
          terminal := outcome;
          Store(Closed(terminal));
        case _ =>
          terminal := error;
          Store(Closed(terminal));
      }
    }

    method PublishTimeout()
      modifies this
      ensures Read() == PutState(old(Read()), PublishCloseTimeout(old(value)))
    {
      if value.Closed? {
        return;
      }
      var terminal := if value.PeerClosed? then value.outcome else TIMED_OUT;
      Store(Closed(terminal));
    }
  }

  class SignalWatch {
    var value: ShutdownSignal
    var version: nat

    function Read(): SignalCell reads this { SignalCell(value, version) }

    constructor ()
      ensures Read() == SignalCell(Running, 0)
    {
      value, version := Running, 0;
    }

    method RaiseAbort()
      modifies this
      ensures Read() == PutSignal(old(Read()), SignalAbort(old(value)))
    {
      if value != Abort {
        value, version := Abort, version + 1;
      }
    }

    method RaiseLocalClose()
      modifies this
      ensures Read() == PutSignal(old(Read()), SignalLocalClose(old(value)))
    {
      if value == Running {
        value, version := LocalClose, version + 1;
      }
    }

    method RaisePeerClose()
      modifies this
      ensures Read() == PutSignal(old(Read()), SignalPeerClose(old(value)))
    {
      if value == Running || value == LocalClose {
        value, version := PeerClose, version + 1;
      }
    }
  }

  // saturating_sub(1)
  function Less(count: nat): nat { if count == 0 then 0 else count - 1 }

  class TaskCounter {
    var value: nat
    var version: nat
    ghost var guards: set<DriverTaskGuard>

    function Read(): CountCell reads this { CountCell(value, version) }

    ghost predicate Valid() reads this { value == |guards| }

    constructor ()
      ensures Valid() && guards == {} && Read() == CountCell(0, 0)
    {
      value, version, guards := 0, 0, {};
    }
  }

  // While a guard lives, its counter counts it; the counter of a set of guards
  // is exactly their number, so dropping one never saturates.
  class DriverTaskGuard {
    const counter: TaskCounter

    constructor (counter: TaskCounter)
      requires counter.Valid()
      requires forall g :: g in counter.guards ==> allocated(g)
      modifies counter
      ensures this.counter == counter && counter.Valid()
      ensures counter.guards == old(counter.guards) + {this} && this !in old(counter.guards)
      ensures counter.Read() == PutCount(old(counter.Read()), old(counter.value) + 1)
    {
      this.counter := counter;
      new;
      counter.value, counter.version := counter.value + 1, counter.version + 1;
      counter.guards := counter.guards + {this};
    }

    method Drop()
      requires counter.Valid() && this in counter.guards
      modifies counter
      ensures counter.Valid() && counter.guards == old(counter.guards) - {this}
      ensures counter.Read() == PutCount(old(counter.Read()), Less(old(counter.value)))
      ensures counter.value + 1 == old(counter.value)
    {
      counter.guards := counter.guards - {this};
      counter.value, counter.version := Less(counter.value), counter.version + 1;
    }
  }
}
