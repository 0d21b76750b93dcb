// manager.go: that what the engine and a billing carry emit reaches the output it
// was addressed to, and how a run ends.
module OutputDeliveries {
  import opened Events
  import opened ManagedOutputs

  // What the moves of a run contribute, in order.
  function Along<T>(s: Session, moves: seq<Move>, part: (Session, Move) -> seq<T>): seq<T> {
    if moves == [] then []
    else
      var (rest, m) := (moves[..|moves| - 1], moves[|moves| - 1]);
      Along(s, rest, part) + if Enabled(Reach(s, rest), m) then part(Reach(s, rest), m) else []
  }

  // What moves take out of a store is what they had put into it, in order, but for
  // what it still holds.
  lemma {:induction false} Conserved<T>(
      s: Session, moves: seq<Move>, put: (Session, Move) -> seq<T>, took: (Session, Move) -> seq<T>, held: Session -> seq<T>)
    requires forall t, m :: Enabled(t, m) ==> held(t) + put(t, m) == took(t, m) + held(Next(t, m))
    ensures held(s) + Along(s, moves, put) == Along(s, moves, took) + held(Reach(s, moves))
  {
    hide Enabled, Next;
    if moves != [] {
      var (rest, m) := (moves[..|moves| - 1], moves[|moves| - 1]);
      var t := Reach(s, rest);
      Conserved(s, rest, put, took, held);
      if Enabled(t, m) {
        Shifted(held(s), Along(s, rest, put), put(t, m), Along(s, rest, took), held(t), took(t, m), held(Next(t, m)));
        assert Along(s, moves, put) == Along(s, rest, put) + put(t, m) && Along(s, moves, took) == Along(s, rest, took) + took(t, m);
      } else {
        assert Along(s, moves, put) == Along(s, rest, put) && Along(s, moves, took) == Along(s, rest, took);
      }
    }
  }

  lemma Shifted<T>(held: seq<T>, put: seq<T>, more: seq<T>, took: seq<T>, before: seq<T>, taken: seq<T>, after: seq<T>)
    requires held + put == took + before && before + more == taken + after
    ensures held + (put + more) == (took + taken) + after
  {
    assert held + (put + more) == (held + put) + more;
    assert (took + before) + more == took + (before + more);
  }

  // ---------------------------------------------------------------------
  // What was sent
  // ---------------------------------------------------------------------

  predicate IsOpen(s: Session, out: nat) {
    out < |s.outputs| && !s.outputs[out].closed
  }

  // The event a move puts into an output: one that was addressed to it, or the
  // terminal event at the end of a run without error; the output is open and its
  // queue not full.
  function SentBy(s: Session, m: Move): seq<Flight> {
    if !Enabled(s, m) then []
    else match m
      case EngineSend(full) => if !full && IsOpen(s, s.finish.flight.value.out) then [s.finish.flight.value] else []
      case CarrySend(k, full) => if !full && IsOpen(s, s.carries[k].flight.value.out) then [s.carries[k].flight.value] else []
      case SendTerminal(full) =>
        var f := s.finish;
        if !full && f.err.None? && f.terminal.Some? && f.out.Some? && IsOpen(s, f.out.value)
        then [Flight(f.terminal.value, f.out.value)] else []
      case _ => []
  }

  function SentTo(out: nat): (Session, Move) -> seq<Event> {
    (s: Session, m: Move) => var f := SentBy(s, m); if f != [] && f[0].out == out then [f[0].event] else []
  }

  function EventsOf(out: nat): Session -> seq<Event> {
    (s: Session) => if out < |s.outputs| then s.outputs[out].events else []
  }

  function Nothing(): (Session, Move) -> seq<Event> {
    (s: Session, m: Move) => []
  }

  lemma DeliverAdds(s: Session, f: Flight, full: bool, out: nat)
    ensures EventsOf(out)(Deliver(s, f, full)) == EventsOf(out)(s) + (if !full && IsOpen(s, f.out) && f.out == out then [f.event] else [])
  {}

  lemma CloseOnlyCloses(s: Session, o: nat, err: Option<Failure>, out: nat)
    ensures EventsOf(out)(CloseOutput(s, o, err)) == EventsOf(out)(s)
    ensures CloseOutput(s, o, err) == s.(outputs := CloseOutput(s, o, err).outputs)
  {}

  lemma TerminalAdds(s: Session, full: bool, out: nat)
    requires Enabled(s, SendTerminal(full))
    ensures EventsOf(out)(Terminal(s, full)) == EventsOf(out)(s) + SentTo(out)(s, SendTerminal(full))
  {}

  lemma MoveAdds(s: Session, m: Move, out: nat)
    requires Enabled(s, m)
    ensures EventsOf(out)(Next(s, m)) == EventsOf(out)(s) + SentTo(out)(s, m)
  {
    hide Deliver, CloseOutput, Terminal, Address;
    match m {
      case EngineSend(full) => DeliverAdds(s, s.finish.flight.value, full, out);
      case CarrySend(k, full) => DeliverAdds(s, s.carries[k].flight.value, full, out);
      case SendTerminal(full) => TerminalAdds(s, full, out);
      case _ => OthersAddNothing(s, m, out);
    }
  }

  lemma CloserAddsNothing(s: Session, m: Move, out: nat)
    requires Enabled(s, m) && (m.Park? || m.ParkSave? || m.CloseAs? || m.Cancel? || m.CancelRelease?)
    ensures EventsOf(out)(Next(s, m)) == EventsOf(out)(s)
  {
    hide CloseOutput, EngineNext, FinishNext, CarryNext;
    if m.CloseAs? {
      CloseOnlyCloses(s, s.closers[m.k].out, s.closers[m.k].err, out);
    }
  }

  lemma CarryAddsNothing(s: Session, m: Move, out: nat)
    requires Enabled(s, m) && (m.Resume? || m.CarryEmit? || m.ResultsDoNotFit?)
    ensures EventsOf(out)(Next(s, m)) == EventsOf(out)(s)
  {
    hide CloseOutput, Address, Deliver, EngineNext, FinishNext, CloserNext;
    if m.CarryEmit? {
      AddressKeepsOwners(s, s.carries[m.k].rest[0], m.overLimit);
    } else if m.ResultsDoNotFit? {
      var o := s.carries[m.k].out;
      CloseOnlyCloses(s.(current := if s.current == Some(o) then None else s.current), o, Some(QueueFull), out);
    }
  }

  lemma OthersAddNothing(s: Session, m: Move, out: nat)
    requires Enabled(s, m) && !m.EngineSend? && !m.CarrySend? && !m.SendTerminal?
    ensures EventsOf(out)(Next(s, m)) == EventsOf(out)(s) && SentTo(out)(s, m) == []
  {
    hide CloseOutput, Address, Deliver, Terminal, CloserNext, CarryNext;
    if m.Park? || m.ParkSave? || m.CloseAs? || m.Cancel? || m.CancelRelease? {
      hide Next;
      CloserAddsNothing(s, m, out);
    } else if m.Resume? || m.CarryEmit? || m.ResultsDoNotFit? {
      hide Next;
      CarryAddsNothing(s, m, out);
    } else if m.EngineEmit? || m.EngineReturn? {
      hide FinishNext;
      if m.EngineEmit? {
        AddressKeepsOwners(s, m.event, m.overLimit);
      }
    } else {
      hide EngineNext;
      if m.CloseFinal? && s.finish.out.Some? {
        CloseOnlyCloses(s, s.finish.out.value, s.finish.err, out);
      }
    }
  }

  // In every interleaving an output holds exactly what was sent to it, in order.
  lemma OutputHoldsWhatWasSent(history: bool, owes: bool, moves: seq<Move>, out: nat)
    ensures var s := NewSession(history, owes); EventsOf(out)(Reach(s, moves)) == Along(s, moves, SentTo(out))
  {
    hide Enabled, Next, NewSession, SentTo, EventsOf;
    var s := NewSession(history, owes);
    NothingYet(history, owes, out);
    forall t, m | Enabled(t, m)
      ensures EventsOf(out)(t) + SentTo(out)(t, m) == Nothing()(t, m) + EventsOf(out)(Next(t, m))
    {
      MoveAdds(t, m, out);
    }
    Conserved(s, moves, SentTo(out), Nothing(), EventsOf(out));
    NothingAlong(s, moves);
  }

  lemma NothingYet(history: bool, owes: bool, out: nat)
    ensures EventsOf(out)(NewSession(history, owes)) == []
  {}

  lemma {:induction false} NothingAlong(s: Session, moves: seq<Move>)
    ensures Along(s, moves, Nothing()) == []
  {
    if moves != [] {
      NothingAlong(s, moves[..|moves| - 1]);
    }
  }

  // ---------------------------------------------------------------------
  // What was addressed
  // ---------------------------------------------------------------------

  // An emit addresses its event to the output of the moment, unless the session has
  // failed, its snapshot is over the limit, or the event is the terminal one.
  function Addresses(s: Session, e: Event, overLimit: bool): seq<Flight> {
    if s.stateErr.None? && !overLimit && e.kind != Done && s.current.Some? then [Flight(e, s.current.value)] else []
  }

  function EngineAddressed(): (Session, Move) -> seq<Flight> {
    (s: Session, m: Move) => if m.EngineEmit? && Enabled(s, m) then Addresses(s, m.event, m.overLimit) else []
  }

  function EngineHandled(): (Session, Move) -> seq<Flight> {
    (s: Session, m: Move) => if m.EngineSend? && Enabled(s, m) then [s.finish.flight.value] else []
  }

  function EngineHolds(): Session -> seq<Flight> {
    (s: Session) => if s.finish.Working? && s.finish.flight.Some? then [s.finish.flight.value] else []
  }

  lemma EngineMoveHandles(s: Session, m: Move)
    requires Enabled(s, m)
    ensures EngineHolds()(s) + EngineAddressed()(s, m) == EngineHandled()(s, m) + EngineHolds()(Next(s, m))
  {
    if m.EngineSend? {
      hide Deliver, FinishNext, CloserNext, CarryNext;
      DeliverKeepsOwners(s, s.finish.flight.value, m.full);
    } else if m.EngineEmit? {
      hide FinishNext, CloserNext, CarryNext;
    } else {
      hide Next;
      OthersHoldNothing(s, m);
    }
  }

  lemma OthersHoldNothing(s: Session, m: Move)
    requires Enabled(s, m) && !m.EngineEmit? && !m.EngineSend?
    ensures EngineHolds()(Next(s, m)) == EngineHolds()(s)
  {
    hide CloseOutput, Terminal, Deliver, Address;
    if m.Park? || m.ParkSave? || m.CloseAs? || m.Cancel? || m.CancelRelease? {
      hide EngineNext, FinishNext, CarryNext;
      if m.CloseAs? {
        CloseOnlyCloses(s, s.closers[m.k].out, s.closers[m.k].err, 0);
      }
    } else if m.Resume? || m.CarryEmit? || m.CarrySend? || m.ResultsDoNotFit? {
      hide EngineNext, FinishNext, CloserNext;
      CarryKeepsFinish(s, m);
    } else {
      hide CloserNext, CarryNext;
      if m.SendTerminal? {
        TerminalEnds(s, m.full);
      }
    }
  }

  lemma CarryKeepsFinish(s: Session, m: Move)
    requires Enabled(s, m) && (m.Resume? || m.CarryEmit? || m.CarrySend? || m.ResultsDoNotFit?)
    ensures CarryNext(s, m).finish == s.finish
  {
    hide CloseOutput, Deliver, Address;
    match m {
      case Resume(_) =>
      case CarryEmit(k, overLimit) => AddressKeepsOwners(s, s.carries[k].rest[0], overLimit);
      case CarrySend(k, full) => DeliverKeepsOwners(s, s.carries[k].flight.value, full);
      case ResultsDoNotFit(k) =>
        var o := s.carries[k].out;
        CloseOnlyCloses(s.(current := if s.current == Some(o) then None else s.current), o, Some(QueueFull), 0);
    }
  }

  lemma TerminalEnds(s: Session, full: bool)
    requires s.finish.Released?
    ensures Terminal(s, full).finish.Closing?
    ensures Terminal(s, full) == s.(outputs := Terminal(s, full).outputs, finish := Terminal(s, full).finish)
  {}

  // The engine's events are handled in the order in which it emitted them; none is
  // lost on the way and none is invented.
  lemma EngineEventsAreHandled(history: bool, owes: bool, moves: seq<Move>)
    ensures var s := NewSession(history, owes);
            Along(s, moves, EngineAddressed()) == Along(s, moves, EngineHandled()) + EngineHolds()(Reach(s, moves))
  {
    forall t, m | Enabled(t, m)
      ensures EngineHolds()(t) + EngineAddressed()(t, m) == EngineHandled()(t, m) + EngineHolds()(Next(t, m))
    {
      EngineMoveHandles(t, m);
    }
    Conserved(NewSession(history, owes), moves, EngineAddressed(), EngineHandled(), EngineHolds());
  }

  // ---------------------------------------------------------------------
  // The billing carry of a resume
  // ---------------------------------------------------------------------

  function CarryGiven(k: nat): (Session, Move) -> seq<Event> {
    (s: Session, m: Move) => if m.Resume? && |s.carries| == k then m.carry else []
  }

  function CarryEmitted(k: nat): (Session, Move) -> seq<Event> {
    (s: Session, m: Move) => if m.CarryEmit? && m.k == k && Enabled(s, m) then [s.carries[k].rest[0]] else []
  }

  function CarryRest(k: nat): Session -> seq<Event> {
    (s: Session) => if k < |s.carries| then s.carries[k].rest else []
  }

  function CarryAddressed(k: nat): (Session, Move) -> seq<Flight> {
    (s: Session, m: Move) => if m.CarryEmit? && m.k == k && Enabled(s, m) then Addresses(s, s.carries[k].rest[0], m.overLimit) else []
  }

  function CarryHandled(k: nat): (Session, Move) -> seq<Flight> {
    (s: Session, m: Move) => if m.CarrySend? && m.k == k && Enabled(s, m) then [s.carries[k].flight.value] else []
  }

  function CarryHolds(k: nat): Session -> seq<Flight> {
    (s: Session) => if k < |s.carries| && s.carries[k].flight.Some? then [s.carries[k].flight.value] else []
  }

  lemma OthersKeepCarries(s: Session, m: Move)
    requires Enabled(s, m) && !m.Resume? && !m.CarryEmit? && !m.CarrySend?
    ensures Next(s, m).carries == s.carries
  {
    hide CloseOutput, Deliver, Address, Terminal;
    match m {
      case EngineEmit(e, overLimit) => AddressKeepsOwners(s, e, overLimit);
      case EngineSend(full) => DeliverKeepsOwners(s, s.finish.flight.value, full);
      case SendTerminal(full) => TerminalKeepsCarries(s, full);
      case CloseFinal => CloseKeepsCarries(s);
      case CloseAs(_) => CloseKeepsCarries(s);
      case ResultsDoNotFit(_) => CloseKeepsCarries(s);
      case _ =>
    }
  }

  lemma CarrySendHandles(s: Session, j: nat, full: bool, k: nat)
    requires Enabled(s, CarrySend(j, full))
    ensures var t := Next(s, CarrySend(j, full)); CarryRest(k)(s) == CarryRest(k)(t)
    ensures CarryHolds(k)(s) == CarryHandled(k)(s, CarrySend(j, full)) + CarryHolds(k)(Next(s, CarrySend(j, full)))
  {
    hide Deliver, EngineNext, FinishNext, CloserNext;
    DeliverKeepsOwners(s, s.carries[j].flight.value, full);
  }

  lemma CarryEmitHandles(s: Session, j: nat, overLimit: bool, k: nat)
    requires Enabled(s, CarryEmit(j, overLimit))
    ensures var (m, t) := (CarryEmit(j, overLimit), Next(s, CarryEmit(j, overLimit)));
            && CarryRest(k)(s) == CarryEmitted(k)(s, m) + CarryRest(k)(t)
            && CarryHolds(k)(s) + CarryAddressed(k)(s, m) == CarryHolds(k)(t)
  {
    hide EngineNext, FinishNext, CloserNext;
  }

  lemma ResumeGives(s: Session, carry: seq<Event>, k: nat)
    requires Enabled(s, Resume(carry))
    ensures var t := Next(s, Resume(carry));
            CarryRest(k)(s) + CarryGiven(k)(s, Resume(carry)) == CarryRest(k)(t) && CarryHolds(k)(s) == CarryHolds(k)(t)
  {
    hide EngineNext, FinishNext, CloserNext;
  }

  lemma CarryMoveHandles(s: Session, m: Move, k: nat)
    requires Enabled(s, m)
    ensures CarryRest(k)(s) + CarryGiven(k)(s, m) == CarryEmitted(k)(s, m) + CarryRest(k)(Next(s, m))
    ensures CarryHolds(k)(s) + CarryAddressed(k)(s, m) == CarryHandled(k)(s, m) + CarryHolds(k)(Next(s, m))
  {
    hide Enabled, Next;
    match m {
      case CarrySend(j, full) => CarrySendHandles(s, j, full, k);
      case CarryEmit(j, overLimit) => CarryEmitHandles(s, j, overLimit, k);
      case Resume(carry) => ResumeGives(s, carry, k);
      case _ => OthersKeepCarries(s, m);
    }
  }

  lemma NothingCarriedYet(history: bool, owes: bool, k: nat)
    ensures CarryRest(k)(NewSession(history, owes)) == [] && CarryHolds(k)(NewSession(history, owes)) == []
  {}

  // A resume emits its carry in order, and its events are handled like the engine's.
  lemma CarryEventsAreHandled(history: bool, owes: bool, moves: seq<Move>, k: nat)
    ensures var s := NewSession(history, owes);
            && Along(s, moves, CarryGiven(k)) == Along(s, moves, CarryEmitted(k)) + CarryRest(k)(Reach(s, moves))
            && Along(s, moves, CarryAddressed(k)) == Along(s, moves, CarryHandled(k)) + CarryHolds(k)(Reach(s, moves))
  {
    hide Enabled, Next, CarryRest, CarryGiven, CarryEmitted, CarryHolds, CarryAddressed, CarryHandled;
    var s := NewSession(history, owes);
    assert CarryRest(k)(s) == [] && CarryHolds(k)(s) == [] by { NothingCarriedYet(history, owes, k); }
    forall t, m | Enabled(t, m)
      ensures CarryRest(k)(t) + CarryGiven(k)(t, m) == CarryEmitted(k)(t, m) + CarryRest(k)(Next(t, m))
      ensures CarryHolds(k)(t) + CarryAddressed(k)(t, m) == CarryHandled(k)(t, m) + CarryHolds(k)(Next(t, m))
    {
      CarryMoveHandles(t, m, k);
    }
    Conserved(s, moves, CarryGiven(k), CarryEmitted(k), CarryRest(k));
    Conserved(s, moves, CarryAddressed(k), CarryHandled(k), CarryHolds(k));
  }

  // ---------------------------------------------------------------------
  // How the run ends
  // ---------------------------------------------------------------------

  function FirstOf<T>(all: seq<T>): Option<T> {
    if all == [] then None else Some(all[0])
  }

  function LastOf<T>(all: seq<T>): Option<T> {
    if all == [] then None else Some(all[|all| - 1])
  }

  // What can go wrong in a run: a snapshot over its limit and a full queue while the
  // engine works, the engine itself, the save its last segment owes, and a full
  // queue for the terminal event.
  function WentWrong(): (Session, Move) -> seq<Failure> {
    (s: Session, m: Move) =>
      if !Enabled(s, m) then []
      else match m
        case EngineEmit(_, overLimit) => if overLimit then [EngineFailed] else []
        case CarryEmit(_, overLimit) => if overLimit && s.finish.Working? then [EngineFailed] else []
        case EngineSend(full) => if full && IsOpen(s, s.finish.flight.value.out) then [BufferFull] else []
        case CarrySend(k, full) => if full && s.finish.Working? && IsOpen(s, s.carries[k].flight.value.out) then [BufferFull] else []
        case EngineReturn(err) => if err.Some? then [err.value] else []
        case SaveFinal(ok) => if s.owed && !ok then [SaveFailed] else []
        case SendTerminal(full) =>
          var f := s.finish;
          if full && f.terminal.Some? && f.out.Some? && IsOpen(s, f.out.value) then [BufferFull] else []
        case _ => []
  }

  // The error of the session while its engine works, and of the run from then on.
  function RunError(s: Session): Option<Failure> {
    if s.finish.Working? then s.stateErr else s.finish.err
  }

  function Earlier(err: Option<Failure>, more: seq<Failure>): Option<Failure> {
    if err.Some? then err else FirstOf(more)
  }

  lemma EngineMoveErrs(s: Session, m: Move)
    requires Inv(s) && Enabled(s, m) && (m.EngineEmit? || m.EngineSend? || m.EngineReturn?)
    ensures RunError(Next(s, m)) == Earlier(RunError(s), WentWrong()(s, m))
  {
    hide FinishNext, CloserNext, CarryNext, Dones, DoneInv, CarriesInv;
  }

  lemma FinishMoveErrs(s: Session, m: Move)
    requires Inv(s) && Enabled(s, m) && (m.TakeOutput? || m.SaveFinal? || m.ReleaseFinal? || m.SendTerminal? || m.CloseFinal?)
    ensures RunError(Next(s, m)) == Earlier(RunError(s), WentWrong()(s, m))
  {
    hide EngineNext, CloserNext, CarryNext, Dones, DoneInv, CarriesInv;
  }

  lemma CarryMoveErrs(s: Session, m: Move)
    requires Enabled(s, m) && (m.Resume? || m.CarryEmit? || m.CarrySend? || m.ResultsDoNotFit?)
    ensures RunError(Next(s, m)) == Earlier(RunError(s), WentWrong()(s, m))
  {
    hide EngineNext, FinishNext, CloserNext, CloseOutput, Deliver, Address;
    CarryKeepsFinish(s, m);
    match m {
      case Resume(_) =>
      case CarryEmit(k, overLimit) => AddressErrs(s, s.carries[k].rest[0], overLimit);
      case CarrySend(k, full) => DeliverErrs(s, s.carries[k].flight.value, full);
      case ResultsDoNotFit(k) =>
        var o := s.carries[k].out;
        CloseOnlyCloses(s.(current := if s.current == Some(o) then None else s.current), o, Some(QueueFull), 0);
    }
  }

  lemma AddressErrs(s: Session, e: Event, overLimit: bool)
    ensures Address(s, e, overLimit).0.stateErr == Earlier(s.stateErr, if overLimit then [EngineFailed] else [])
  {}

  lemma DeliverErrs(s: Session, f: Flight, full: bool)
    ensures Deliver(s, f, full).stateErr == Earlier(s.stateErr, if full && IsOpen(s, f.out) then [BufferFull] else [])
  {}

  lemma CloserMoveErrs(s: Session, m: Move)
    requires Enabled(s, m) && (m.Park? || m.ParkSave? || m.CloseAs? || m.Cancel? || m.CancelRelease?)
    ensures RunError(Next(s, m)) == RunError(s) && WentWrong()(s, m) == []
  {
    hide EngineNext, FinishNext, CarryNext;
  }

  lemma MoveErrs(s: Session, m: Move)
    requires Inv(s) && Enabled(s, m)
    ensures RunError(Next(s, m)) == Earlier(RunError(s), WentWrong()(s, m))
  {
    hide Inv, Enabled, Next, RunError, WentWrong;
    if m.EngineEmit? || m.EngineSend? || m.EngineReturn? {
      EngineMoveErrs(s, m);
    } else if m.TakeOutput? || m.SaveFinal? || m.ReleaseFinal? || m.SendTerminal? || m.CloseFinal? {
      FinishMoveErrs(s, m);
    } else if m.Resume? || m.CarryEmit? || m.CarrySend? || m.ResultsDoNotFit? {
      CarryMoveErrs(s, m);
    } else {
      CloserMoveErrs(s, m);
    }
  }

  // The error of a run is the first thing that went wrong, in every interleaving.
  lemma {:induction false} FirstErrorIsTheRuns(history: bool, owes: bool, moves: seq<Move>)
    ensures var s := NewSession(history, owes); RunError(Reach(s, moves)) == FirstOf(Along(s, moves, WentWrong()))
  {
    hide Inv, Enabled, Next, RunError, WentWrong;
    var s := NewSession(history, owes);
    if moves == [] {
      NoErrorYet(history, owes);
    } else {
      var (rest, m) := (moves[..|moves| - 1], moves[|moves| - 1]);
      FirstErrorIsTheRuns(history, owes, rest);
      NewSessionInv(history, owes);
      ReachKeepsInv(s, rest);
      if Enabled(Reach(s, rest), m) {
        MoveErrs(Reach(s, rest), m);
      }
    }
  }

  lemma NoErrorYet(history: bool, owes: bool)
    ensures RunError(NewSession(history, owes)) == None
  {}

  // The terminal events of the engine, as long as the session has not failed.
  function TerminalSaid(): (Session, Move) -> seq<Event> {
    (s: Session, m: Move) =>
      if m.EngineEmit? && Enabled(s, m) && s.stateErr.None? && !m.overLimit && m.event.kind == Done then [m.event] else []
  }

  // The terminal event that the session remembers, and that the end of the run sends.
  predicate Remembers(s: Session, done: Option<Event>) {
    s.terminal == done && (s.finish.Taken? || s.finish.Saved? || s.finish.Released? ==> s.finish.terminal == done)
  }

  lemma EngineMoveRemembers(s: Session, m: Move, done: Option<Event>)
    requires Enabled(s, m) && Remembers(s, done) && (m.EngineEmit? || m.EngineSend? || m.EngineReturn?)
    ensures Remembers(Next(s, m), if TerminalSaid()(s, m) == [] then done else Some(TerminalSaid()(s, m)[0]))
  {
    hide FinishNext, CloserNext, CarryNext;
  }

  lemma FinishMoveRemembers(s: Session, m: Move, done: Option<Event>)
    requires Enabled(s, m) && Remembers(s, done) && (m.TakeOutput? || m.SaveFinal? || m.ReleaseFinal? || m.SendTerminal? || m.CloseFinal?)
    ensures Remembers(Next(s, m), done)
  {
    hide EngineNext, CloserNext, CarryNext;
  }

  lemma CarryMoveRemembers(s: Session, m: Move, done: Option<Event>)
    requires Inv(s) && Enabled(s, m) && Remembers(s, done) && (m.Resume? || m.CarryEmit? || m.CarrySend? || m.ResultsDoNotFit?)
    ensures Remembers(Next(s, m), done)
  {
    hide EngineNext, FinishNext, CloserNext, CarryNext, Dones, DoneInv, FinishInv;
    CarryKeepsFinish(s, m);
    CarryKeepsTerminal(s, m);
  }

  lemma CarryKeepsTerminal(s: Session, m: Move)
    requires CarriesInv(s) && Enabled(s, m) && (m.Resume? || m.CarryEmit? || m.CarrySend? || m.ResultsDoNotFit?)
    ensures CarryNext(s, m).terminal == s.terminal
  {
    hide CloseOutput, Deliver;
    match m {
      case Resume(_) =>
      case CarryEmit(k, _) => assert CarryInv(s.carries[k]) && s.carries[k].rest[0] in s.carries[k].rest;
      case CarrySend(k, full) => DeliverOnlySends(s, s.carries[k].flight.value, full);
      case ResultsDoNotFit(k) =>
        var o := s.carries[k].out;
        CloseOnlyCloses(s.(current := if s.current == Some(o) then None else s.current), o, Some(QueueFull), 0);
    }
  }

  lemma DeliverOnlySends(s: Session, f: Flight, full: bool)
    ensures var t := Deliver(s, f, full); t == s.(outputs := t.outputs, stateErr := t.stateErr)
  {}

  lemma CloserMoveRemembers(s: Session, m: Move, done: Option<Event>)
    requires Enabled(s, m) && Remembers(s, done) && (m.Park? || m.ParkSave? || m.CloseAs? || m.Cancel? || m.CancelRelease?)
    ensures Remembers(Next(s, m), done)
  {
    hide EngineNext, FinishNext, CarryNext;
  }

  lemma MoveRemembers(s: Session, m: Move, done: Option<Event>)
    requires Inv(s) && Enabled(s, m) && Remembers(s, done)
    ensures Remembers(Next(s, m), if TerminalSaid()(s, m) == [] then done else Some(TerminalSaid()(s, m)[0]))
  {
    hide Inv, Enabled, Next, Remembers;
    if m.EngineEmit? || m.EngineSend? || m.EngineReturn? {
      EngineMoveRemembers(s, m, done);
    } else if m.TakeOutput? || m.SaveFinal? || m.ReleaseFinal? || m.SendTerminal? || m.CloseFinal? {
      FinishMoveRemembers(s, m, done);
    } else if m.Resume? || m.CarryEmit? || m.CarrySend? || m.ResultsDoNotFit? {
      CarryMoveRemembers(s, m, done);
    } else {
      CloserMoveRemembers(s, m, done);
    }
  }

  // What a run sends at its end is the last terminal event of its engine.
  lemma {:induction false} LastTerminalIsRemembered(history: bool, owes: bool, moves: seq<Move>)
    ensures var s := NewSession(history, owes); Remembers(Reach(s, moves), LastOf(Along(s, moves, TerminalSaid())))
  {
    hide Inv, Enabled, Next, Remembers;
    var s := NewSession(history, owes);
    if moves == [] {
      NoTerminalYet(history, owes);
    } else {
      var (rest, m) := (moves[..|moves| - 1], moves[|moves| - 1]);
      LastTerminalIsRemembered(history, owes, rest);
      NewSessionInv(history, owes);
      ReachKeepsInv(s, rest);
      if Enabled(Reach(s, rest), m) {
        MoveRemembers(Reach(s, rest), m, LastOf(Along(s, rest, TerminalSaid())));
      }
    }
  }

  lemma NoTerminalYet(history: bool, owes: bool)
    ensures Remembers(NewSession(history, owes), None)
  {}

  // ---------------------------------------------------------------------
  // What a segment owes
  // ---------------------------------------------------------------------

  // A resume opens a segment that owes its snapshot; a Park and the end of the run
  // take the open segment with what it owes.
  function Owing(): (Session, Move) -> seq<bool> {
    (s: Session, m: Move) => match m
      case Resume(_) => [true]
      case Park => [false]
      case TakeOutput => [false]
      case _ => []
  }

  function OwedAtTheEnd(): (Session, Move) -> seq<bool> {
    (s: Session, m: Move) => if m.TakeOutput? then [s.history || s.owes] else []
  }

  predicate Owes(s: Session, history: bool, owes: bool, owed: seq<bool>) {
    s.history == history && s.owes == owes && (owed != [] ==> !s.finish.Working? && !s.finish.Returned? && s.owed == owed[0])
  }

  lemma CloserMoveOwes(s: Session, m: Move, history: bool, owes: bool, owed: seq<bool>)
    requires Enabled(s, m) && Owes(s, history, owes, owed) && (m.Park? || m.ParkSave? || m.CloseAs? || m.Cancel? || m.CancelRelease?)
    ensures Owes(Next(s, m), history, if m.Park? then false else owes, owed)
  {
    hide EngineNext, FinishNext, CarryNext;
  }

  lemma CarryMoveOwes(s: Session, m: Move, history: bool, owes: bool, owed: seq<bool>)
    requires Enabled(s, m) && Owes(s, history, owes, owed) && (m.Resume? || m.CarryEmit? || m.CarrySend? || m.ResultsDoNotFit?)
    ensures Owes(Next(s, m), history, if m.Resume? then true else owes, owed)
  {
    hide EngineNext, FinishNext, CloserNext, CloseOutput, Deliver, Address;
    match m {
      case Resume(_) =>
      case CarryEmit(k, overLimit) => AddressKeepsOwners(s, s.carries[k].rest[0], overLimit);
      case CarrySend(k, full) => DeliverOnlySends(s, s.carries[k].flight.value, full);
      case ResultsDoNotFit(k) =>
        var o := s.carries[k].out;
        CloseOnlyCloses(s.(current := if s.current == Some(o) then None else s.current), o, Some(QueueFull), 0);
    }
  }

  lemma EngineMoveOwes(s: Session, m: Move, history: bool, owes: bool, owed: seq<bool>)
    requires Enabled(s, m) && Owes(s, history, owes, owed) && (m.EngineEmit? || m.EngineReturn? || m.EngineSend?)
    ensures Owes(Next(s, m), history, owes, owed)
  {
    hide FinishNext, CloserNext, CarryNext;
  }

  lemma TakeMoveOwes(s: Session, history: bool, owes: bool, owed: seq<bool>)
    requires Enabled(s, TakeOutput) && Owes(s, history, owes, owed)
    ensures Owes(Next(s, TakeOutput), history, false, owed + [history || owes])
  {
    hide EngineNext, CloserNext, CarryNext;
  }

  lemma EndMoveOwes(s: Session, m: Move, history: bool, owes: bool, owed: seq<bool>)
    requires Enabled(s, m) && Owes(s, history, owes, owed) && (m.SaveFinal? || m.ReleaseFinal? || m.SendTerminal? || m.CloseFinal?)
    ensures Owes(Next(s, m), history, owes, owed)
  {
    hide EngineNext, CloserNext, CarryNext;
  }

  lemma MoveOwes(s: Session, m: Move, history: bool, owes: bool, owed: seq<bool>)
    requires Enabled(s, m) && Owes(s, history, owes, owed)
    ensures var more := Owing()(s, m);
            Owes(Next(s, m), history, if more == [] then owes else more[0], owed + OwedAtTheEnd()(s, m))
  {
    hide Next, Enabled;
    assert owed + [] == owed;
    if m.Park? || m.ParkSave? || m.CloseAs? || m.Cancel? || m.CancelRelease? {
      CloserMoveOwes(s, m, history, owes, owed);
    } else if m.Resume? || m.CarryEmit? || m.CarrySend? || m.ResultsDoNotFit? {
      CarryMoveOwes(s, m, history, owes, owed);
    } else if m.EngineEmit? || m.EngineReturn? || m.EngineSend? {
      EngineMoveOwes(s, m, history, owes, owed);
    } else if m.TakeOutput? {
      TakeMoveOwes(s, history, owes, owed);
    } else {
      EndMoveOwes(s, m, history, owes, owed);
    }
  }

  // The save at the end of a run is owed exactly by a history request and by a
  // segment that was opened by a resume, or from the start, and not parked since.
  lemma {:induction false} LastSegmentOwes(history: bool, owes: bool, moves: seq<Move>)
    ensures var s := NewSession(history, owes);
            var now := LastOf(Along(s, moves, Owing()));
            Owes(Reach(s, moves), history, if now.Some? then now.value else owes, Along(s, moves, OwedAtTheEnd()))
  {
    hide Enabled, Next, Owes, Owing, OwedAtTheEnd;
    var s := NewSession(history, owes);
    if moves == [] {
      OwesFromTheStart(history, owes);
    } else {
      var (rest, m) := (moves[..|moves| - 1], moves[|moves| - 1]);
      var t := Reach(s, rest);
      LastSegmentOwes(history, owes, rest);
      if Enabled(t, m) {
        var now := LastOf(Along(s, rest, Owing()));
        MoveOwes(t, m, history, if now.Some? then now.value else owes, Along(s, rest, OwedAtTheEnd()));
        assert Along(s, moves, OwedAtTheEnd()) == Along(s, rest, OwedAtTheEnd()) + OwedAtTheEnd()(t, m);
        assert |Owing()(t, m)| <= 1 by { OwingSaysLittle(t, m); }
      } else {
        assert Along(s, moves, OwedAtTheEnd()) == Along(s, rest, OwedAtTheEnd());
      }
    }
  }

  lemma OwesFromTheStart(history: bool, owes: bool)
    ensures Owes(NewSession(history, owes), history, owes, [])
  {}

  lemma OwingSaysLittle(s: Session, m: Move)
    ensures |Owing()(s, m)| <= 1
  {}

  function SavesOf(k: nat): (Session, Move) -> seq<bool> {
    (s: Session, m: Move) => if m.ParkSave? && m.k == k then [m.ok] else []
  }

  // What became of a parked output: it waits for its save, or it is closed with what
  // the save came to.
  predicate ParkedAs(s: Session, k: nat, out: nat, owes: bool, saves: seq<bool>) {
    && k < |s.closers| && s.closers[k].out == out
    && if saves == [] then s.closers[k] == Parking(out, owes)
       else !s.closers[k].Parking? && s.closers[k].err == if owes && !saves[0] then Some(SaveFailed) else None
  }

  lemma MoveParksAs(s: Session, m: Move, k: nat, out: nat, owes: bool, saves: seq<bool>)
    requires Enabled(s, m) && ParkedAs(s, k, out, owes, saves)
    ensures ParkedAs(Next(s, m), k, out, owes, saves + SavesOf(k)(s, m))
  {
    assert saves + [] == saves;
    if m.Park? || m.ParkSave? || m.CloseAs? || m.Cancel? || m.CancelRelease? {
      hide EngineNext, FinishNext, CarryNext;
    } else {
      hide Next;
      OthersKeepClosers(s, m);
    }
  }

  lemma OthersKeepClosers(s: Session, m: Move)
    requires Enabled(s, m) && !m.Park? && !m.ParkSave? && !m.CloseAs? && !m.Cancel? && !m.CancelRelease?
    ensures Next(s, m).closers == s.closers
  {
    hide Deliver, CloseOutput, Address, Terminal;
    if m.Resume? || m.CarryEmit? || m.CarrySend? || m.ResultsDoNotFit? {
      hide Next, CarryNext;
      CarryKeepsClosers(s, m);
      CarryIsNext(s, m);
    } else if m.EngineEmit? || m.EngineReturn? || m.EngineSend? {
      hide FinishNext, CloserNext, CarryNext;
      if m.EngineEmit? {
        AddressKeepsOwners(s, m.event, m.overLimit);
      } else if m.EngineSend? {
        DeliverOnlySends(s, s.finish.flight.value, m.full);
      }
    } else {
      hide EngineNext, CloserNext, CarryNext;
      if m.SendTerminal? {
        TerminalEnds(s, m.full);
      } else if m.CloseFinal? && s.finish.out.Some? {
        CloseOnlyCloses(s, s.finish.out.value, s.finish.err, 0);
      }
    }
  }

  lemma CarryIsNext(s: Session, m: Move)
    requires Enabled(s, m) && (m.Resume? || m.CarryEmit? || m.CarrySend? || m.ResultsDoNotFit?)
    ensures Next(s, m) == CarryNext(s, m)
  {
    hide EngineNext, FinishNext, CloserNext, CarryNext;
  }

  lemma CarryKeepsClosers(s: Session, m: Move)
    requires Enabled(s, m) && (m.Resume? || m.CarryEmit? || m.CarrySend? || m.ResultsDoNotFit?)
    ensures CarryNext(s, m).closers == s.closers
  {
    hide CloseOutput, Deliver, Address;
    match m {
      case Resume(_) =>
      case CarryEmit(k, overLimit) => AddressKeepsOwners(s, s.carries[k].rest[0], overLimit);
      case CarrySend(k, full) => DeliverOnlySends(s, s.carries[k].flight.value, full);
      case ResultsDoNotFit(k) =>
        var o := s.carries[k].out;
        CloseOnlyCloses(s.(current := if s.current == Some(o) then None else s.current), o, Some(QueueFull), 0);
    }
  }

  // A parked segment that owes its snapshot is closed with a failed save exactly when
  // the save failed, whatever happens in between.
  lemma {:induction false} ParkedSegmentIsSaved(s: Session, moves: seq<Move>)
    requires Enabled(s, Park)
    ensures var t := Next(s, Park); ParkedAs(Reach(t, moves), |s.closers|, s.current.value, s.owes, Along(t, moves, SavesOf(|s.closers|)))
  {
    var (t, k) := (Next(s, Park), |s.closers|);
    if moves == [] {
      hide EngineNext, FinishNext, CarryNext;
    } else {
      hide Next, ParkedAs, SavesOf;
      var (rest, m) := (moves[..|moves| - 1], moves[|moves| - 1]);
      ParkedSegmentIsSaved(s, rest);
      if Enabled(Reach(t, rest), m) {
        MoveParksAs(Reach(t, rest), m, k, s.current.value, s.owes, Along(t, rest, SavesOf(k)));
        assert Along(t, moves, SavesOf(k)) == Along(t, rest, SavesOf(k)) + SavesOf(k)(Reach(t, rest), m);
      } else {
        assert Along(t, moves, SavesOf(k)) == Along(t, rest, SavesOf(k));
      }
    }
  }

  // ---------------------------------------------------------------------
  // A run that nobody disturbs
  // ---------------------------------------------------------------------

  // No send meets a full queue, no snapshot is over its limit, and nothing is parked
  // or cancelled.
  predicate Quiet(m: Move) {
    && !m.Park? && !m.Cancel? && (m.EngineEmit? ==> !m.overLimit)
    && (m.EngineSend? || m.SendTerminal? ==> !m.full)
  }

  function Said(): (Session, Move) -> seq<Event> {
    (s: Session, m: Move) => if m.EngineEmit? && m.event.kind != Done then [m.event] else []
  }

  function Ending(err: Option<Failure>, done: Option<Event>): seq<Event> {
    if err.None? && done.Some? then [done.value] else []
  }

  // The only output holds what the engine has said so far, but for the event that is
  // on its way, and the terminal event once the run has ended without error.
  predicate Delivered(s: Session, said: seq<Event>, done: Option<Event>) {
    && |s.outputs| == 1 && s.carries == [] && s.closers == [] && s.stateErr.None? && Remembers(s, done)
    && match s.finish
       case Working(flight) =>
         && s.current == Some(0) && !s.closed && !s.outputs[0].closed && (flight.Some? ==> flight.value.out == 0)
         && s.outputs[0].events + (if flight.Some? then [flight.value.event] else []) == said
       case Returned(_) => s.current == Some(0) && !s.closed && s.outputs[0] == Output(said, false, s.outputs[0].result)
       case Closing(out, err) => s.closed && out == Some(0) && s.outputs[0] == Output(said + Ending(err, done), false, s.outputs[0].result)
       case Ended(out, err) => s.closed && out == Some(0) && s.outputs[0] == Output(said + Ending(err, done), true, err)
       case _ => s.closed && s.finish.out == Some(0) && s.outputs[0] == Output(said, false, s.outputs[0].result)
  }

  lemma EngineMoveDelivers(s: Session, m: Move, said: seq<Event>, done: Option<Event>)
    requires Delivered(s, said, done) && Quiet(m) && Enabled(s, m) && (m.EngineEmit? || m.EngineSend? || m.EngineReturn?)
    ensures Delivered(Next(s, m), said + Said()(s, m), if TerminalSaid()(s, m) == [] then done else Some(TerminalSaid()(s, m)[0]))
  {
    hide FinishNext, CloserNext, CarryNext;
  }

  lemma CloseMoveDelivers(s: Session, said: seq<Event>, done: Option<Event>)
    requires Delivered(s, said, done) && Enabled(s, CloseFinal)
    ensures Delivered(Next(s, CloseFinal), said, done)
  {
    hide EngineNext, CloserNext, CarryNext, Terminal;
  }

  lemma TerminalMoveDelivers(s: Session, said: seq<Event>, done: Option<Event>)
    requires Delivered(s, said, done) && Enabled(s, SendTerminal(false))
    ensures Delivered(Next(s, SendTerminal(false)), said, done)
  {
    hide EngineNext, CloserNext, CarryNext, CloseOutput;
    assert said + [] == said;
  }

  lemma FinishMoveDelivers(s: Session, m: Move, said: seq<Event>, done: Option<Event>)
    requires Delivered(s, said, done) && Quiet(m) && Enabled(s, m)
    requires m.TakeOutput? || m.SaveFinal? || m.ReleaseFinal? || m.SendTerminal? || m.CloseFinal?
    ensures Delivered(Next(s, m), said, done)
  {
    if m.CloseFinal? {
      hide Next, Delivered;
      CloseMoveDelivers(s, said, done);
    } else if m.SendTerminal? {
      hide Next, Delivered;
      TerminalMoveDelivers(s, said, done);
    } else {
      hide EngineNext, CloserNext, CarryNext, Terminal, CloseOutput;
    }
  }

  lemma MoveDelivers(s: Session, m: Move, said: seq<Event>, done: Option<Event>)
    requires Delivered(s, said, done) && Quiet(m) && Enabled(s, m)
    ensures Delivered(Next(s, m), said + Said()(s, m), if TerminalSaid()(s, m) == [] then done else Some(TerminalSaid()(s, m)[0]))
  {
    if m.EngineEmit? || m.EngineSend? || m.EngineReturn? {
      hide Next, Delivered;
      EngineMoveDelivers(s, m, said, done);
    } else {
      assert said + [] == said;
      if m.CancelRelease? {
        hide EngineNext, FinishNext, CarryNext;
      } else {
        hide Next;
        FinishMoveDelivers(s, m, said, done);
      }
    }
  }

  // Such a run delivers all that its engine has said, in order, and at its end the
  // terminal event, unless something went wrong before.
  lemma {:induction false} QuietRunDelivers(history: bool, owes: bool, moves: seq<Move>)
    requires forall m :: m in moves ==> Quiet(m)
    ensures var s := NewSession(history, owes); Delivered(Reach(s, moves), Along(s, moves, Said()), LastOf(Along(s, moves, TerminalSaid())))
  {
    hide Enabled, Next, Delivered, Quiet, Said, TerminalSaid;
    assert forall s, m :: |TerminalSaid()(s, m)| <= 1 by { AtMostOneTerminal(); }
    var s := NewSession(history, owes);
    if moves == [] {
      NothingDeliveredYet(history, owes);
    } else {
      var (rest, m) := (moves[..|moves| - 1], moves[|moves| - 1]);
      QuietRunDelivers(history, owes, rest);
      if Enabled(Reach(s, rest), m) {
        assert m in moves;
        MoveDelivers(Reach(s, rest), m, Along(s, rest, Said()), LastOf(Along(s, rest, TerminalSaid())));
        assert Along(s, moves, Said()) == Along(s, rest, Said()) + Said()(Reach(s, rest), m);
      } else {
        assert Along(s, moves, Said()) == Along(s, rest, Said());
      }
    }
  }

  lemma AtMostOneTerminal()
    ensures forall s, m :: |TerminalSaid()(s, m)| <= 1
  {
    hide Enabled;
  }

  lemma NothingDeliveredYet(history: bool, owes: bool)
    ensures Delivered(NewSession(history, owes), [], None)
  {}
}
