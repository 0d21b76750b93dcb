// manager.go: one managed session, its engine, and the requests that park, resume
// and cancel it, interleaved in every way.
module ManagedOutputs {
  import opened Events

  datatype Failure = Canceled | QueueFull | BufferFull | SaveFailed | EngineFailed

  // managedOutput: what was put into the event channel, and the result once closed.
  datatype Output = Output(events: seq<Event>, closed: bool, result: Option<Failure>)

  const NEW_OUTPUT := Output([], false, None)

  datatype Sent = SendOk | SendClosed | SendFull

  // `full` says that the channel has no room at this moment.
  function Send(o: Output, e: Event, full: bool): (Output, Sent) {
    if o.closed then (o, SendClosed) else if full then (o, SendFull) else (o.(events := o.events + [e]), SendOk)
  }

  function Close(o: Output, err: Option<Failure>): Output {
    if o.closed then o else Output(o.events, true, err)
  }

  class ManagedOutput {
    var events: seq<Event>
    var closed: bool
    var result: Option<Failure>

    function View(): Output
      reads this
    {
      Output(events, closed, result)
    }

    constructor ()
      ensures View() == NEW_OUTPUT
    {
      events, closed, result := [], false, None;
    }

    method SendEvent(e: Event, full: bool) returns (sent: Sent)
      modifies this`events
      ensures (View(), sent) == Send(old(View()), e, full)
    {
      if closed {
        return SendClosed;
      }
      if full {
        return SendFull;
      }
      events := events + [e];
      return SendOk;
    }

    method CloseWith(err: Option<Failure>)
      modifies this`closed, this`result
      ensures View() == Close(old(View()), err)
    {
      if closed {
        return;
      }
      closed, result := true, err;
    }
  }

  // ---------------------------------------------------------------------
  // The session
  // ---------------------------------------------------------------------

  // An event that emit has addressed to an output, but not sent yet.
  datatype Flight = Flight(event: Event, out: nat)

  // run: the engine at work, and the steps that finish it.
  datatype Finish =
    | Working(flight: Option<Flight>)
    | Returned(err: Option<Failure>)
    | Taken(out: Option<nat>, err: Option<Failure>, terminal: Option<Event>, owes: bool)
    | Saved(out: Option<nat>, err: Option<Failure>, terminal: Option<Event>)
    | Released(out: Option<nat>, err: Option<Failure>, terminal: Option<Event>)
    | Closing(out: Option<nat>, err: Option<Failure>)
    | Ended(out: Option<nat>, err: Option<Failure>)

  // A request that took an output away from the session: Park saves the segment
  // before it closes the output, Cancel closes it at once.
  datatype Closer =
    | Parking(out: nat, owes: bool)
    | ClosingAs(out: nat, err: Option<Failure>)
    | HasClosed(out: nat, err: Option<Failure>)

  // resume after it installed its output: it emits the billing carry, then queues
  // the results.
  datatype Carry = Carry(out: nat, rest: seq<Event>, flight: Option<Flight>)

  // `owes` says that the open segment has a snapshot to save.  At the end of the
  // run `owed` is what its last segment owed and `finalSave` how saving it went.
  datatype Session = Session(
    history: bool,
    outputs: seq<Output>,
    current: Option<nat>,
    closed: bool,
    stateErr: Option<Failure>,
    terminal: Option<Event>,
    leased: bool,
    owes: bool,
    finish: Finish,
    closers: seq<Closer>,
    carries: seq<Carry>,
    owed: bool,
    finalSave: Option<bool>)

  // startClaimed: a first output.  A run that continues covered results owes their
  // snapshot from the start, a history request owes one at its end.
  function NewSession(history: bool, owes: bool): Session {
    Session(history, [NEW_OUTPUT], Some(0), false, None, None, true, owes, Working(None), [], [], false, None)
  }

  datatype Move =
    // emit up to the end of its first critical section; the segment snapshot may
    // be over its limit.
    | EngineEmit(event: Event, overLimit: bool)
    | EngineSend(full: bool)
    | EngineReturn(err: Option<Failure>)
    | TakeOutput
    | SaveFinal(ok: bool)
    | ReleaseFinal
    | SendTerminal(full: bool)
    | CloseFinal
    | Park
    | ParkSave(k: nat, ok: bool)
    | CloseAs(k: nat)
    | Resume(carry: seq<Event>)
    | CarryEmit(k: nat, overLimit: bool)
    | CarrySend(k: nat, full: bool)
    | ResultsDoNotFit(k: nat)
    | Cancel
    | CancelRelease

  function FailState(s: Session, err: Failure): Session {
    if s.stateErr.None? then s.(stateErr := Some(err)) else s
  }

  // The first half of emit: EventDone is only remembered.
  function Address(s: Session, e: Event, overLimit: bool): (Session, Option<Flight>) {
    if s.stateErr.Some? then (s, None)
    else if overLimit then (FailState(s, EngineFailed), None)
    else if e.kind == Done then (s.(terminal := Some(e)), None)
    else if s.current.None? then (s, None)
    else (s, Some(Flight(e, s.current.value)))
  }

  // The second half.
  function Deliver(s: Session, f: Flight, full: bool): Session {
    if f.out >= |s.outputs| then s
    else
      var (o, sent) := Send(s.outputs[f.out], f.event, full);
      var t := s.(outputs := s.outputs[f.out := o]);
      if sent == SendFull then FailState(t, BufferFull) else t
  }

  function CloseOutput(s: Session, out: nat, err: Option<Failure>): Session {
    if out >= |s.outputs| then s else s.(outputs := s.outputs[out := Close(s.outputs[out], err)])
  }

  predicate Enabled(s: Session, m: Move) {
    match m
    case EngineEmit(_, _) => s.finish == Working(None)
    case EngineSend(_) => s.finish.Working? && s.finish.flight.Some?
    case EngineReturn(_) => s.finish == Working(None)
    case TakeOutput => s.finish.Returned?
    case SaveFinal(_) => s.finish.Taken?
    case ReleaseFinal => s.finish.Saved?
    case SendTerminal(_) => s.finish.Released?
    case CloseFinal => s.finish.Closing?
    case Park => !s.closed && s.current.Some?
    case ParkSave(k, _) => k < |s.closers| && s.closers[k].Parking?
    case CloseAs(k) => k < |s.closers| && s.closers[k].ClosingAs?
    case Resume(carry) => !s.closed && s.current.None? && forall e :: e in carry ==> e.kind != Done
    case CarryEmit(k, _) => k < |s.carries| && s.carries[k].flight.None? && s.carries[k].rest != []
    case CarrySend(k, _) => k < |s.carries| && s.carries[k].flight.Some?
    case ResultsDoNotFit(k) => k < |s.carries| && s.carries[k].flight.None? && s.carries[k].rest == []
    case Cancel => !s.closed
    case CancelRelease => s.closed
  }

  // run: the terminal event is sent only when nothing has failed.
  function Terminal(s: Session, full: bool): Session
    requires s.finish.Released?
  {
    var f := s.finish;
    if f.out.None? || f.out.value >= |s.outputs| || f.err.Some? || f.terminal.None? then s.(finish := Closing(f.out, f.err))
    else
      var (o, sent) := Send(s.outputs[f.out.value], f.terminal.value, full);
      s.(outputs := s.outputs[f.out.value := o], finish := Closing(f.out, if sent == SendFull then Some(BufferFull) else None))
  }

  // emit of the engine, and its return.
  function EngineNext(s: Session, m: Move): Session
    requires Enabled(s, m) && (m.EngineEmit? || m.EngineSend? || m.EngineReturn?)
  {
    match m
    case EngineEmit(e, overLimit) =>
      var (t, flight) := Address(s, e, overLimit);
      t.(finish := Working(flight))
    case EngineSend(full) => Deliver(s, s.finish.flight.value, full).(finish := Working(None))
    case EngineReturn(err) => s.(finish := Returned(if s.stateErr.Some? then s.stateErr else err))
  }

  // run after the engine returned.
  function FinishNext(s: Session, m: Move): Session
    requires Enabled(s, m) && (m.TakeOutput? || m.SaveFinal? || m.ReleaseFinal? || m.SendTerminal? || m.CloseFinal?)
  {
    match m
    case TakeOutput =>
      var owed := s.owes || s.history;
      s.(closed := true, current := None, owes := false, owed := owed, finish := Taken(s.current, s.finish.err, s.terminal, owed))
    case SaveFinal(ok) =>
      var f := s.finish;
      if f.err.Some? || !f.owes then s.(finish := Saved(f.out, f.err, f.terminal))
      else s.(finish := Saved(f.out, if ok then None else Some(SaveFailed), f.terminal), finalSave := Some(ok))
    case ReleaseFinal => s.(leased := false, finish := Released(s.finish.out, s.finish.err, s.finish.terminal))
    case SendTerminal(full) => Terminal(s, full)
    case CloseFinal =>
      var (out, err) := (s.finish.out, s.finish.err);
      (if out.None? then s else CloseOutput(s, out.value, err)).(finish := Ended(out, err))
  }

  // Park and Cancel.
  function CloserNext(s: Session, m: Move): Session
    requires Enabled(s, m) && (m.Park? || m.ParkSave? || m.CloseAs? || m.Cancel? || m.CancelRelease?)
  {
    match m
    case Park => s.(current := None, owes := false, closers := s.closers + [Parking(s.current.value, s.owes)])
    case ParkSave(k, ok) =>
      var c := s.closers[k];
      s.(closers := s.closers[k := ClosingAs(c.out, if c.owes && !ok then Some(SaveFailed) else None)])
    case CloseAs(k) =>
      var c := s.closers[k];
      CloseOutput(s, c.out, c.err).(closers := s.closers[k := HasClosed(c.out, c.err)])
    case Cancel =>
      var taken := if s.current.Some? then [ClosingAs(s.current.value, Some(Canceled))] else [];
      s.(closed := true, current := None, closers := s.closers + taken)
    case CancelRelease => s.(leased := false)
  }

  // resume.
  function CarryNext(s: Session, m: Move): Session
    requires Enabled(s, m) && (m.Resume? || m.CarryEmit? || m.CarrySend? || m.ResultsDoNotFit?)
  {
    match m
    case Resume(carry) =>
      var out := |s.outputs|;
      s.(outputs := s.outputs + [NEW_OUTPUT], current := Some(out), owes := true,
          carries := s.carries + [Carry(out, carry, None)])
    case CarryEmit(k, overLimit) =>
      var c := s.carries[k];
      var (t, flight) := Address(s, c.rest[0], overLimit);
      t.(carries := s.carries[k := Carry(c.out, c.rest[1..], flight)])
    case CarrySend(k, full) =>
      var c := s.carries[k];
      Deliver(s, c.flight.value, full).(carries := s.carries[k := c.(flight := None)])
    case ResultsDoNotFit(k) =>
      var out := s.carries[k].out;
      CloseOutput(s.(current := if s.current == Some(out) then None else s.current), out, Some(QueueFull))
  }

  function Next(s: Session, m: Move): Session
    requires Enabled(s, m)
  {
    if m.EngineEmit? || m.EngineSend? || m.EngineReturn? then EngineNext(s, m)
    else if m.TakeOutput? || m.SaveFinal? || m.ReleaseFinal? || m.SendTerminal? || m.CloseFinal? then FinishNext(s, m)
    else if m.Park? || m.ParkSave? || m.CloseAs? || m.Cancel? || m.CancelRelease? then CloserNext(s, m)
    else CarryNext(s, m)
  }

  // Any interleaving; a move that is not enabled does nothing.
  function Reach(s: Session, moves: seq<Move>): Session {
    if moves == [] then s
    else
      var before := Reach(s, moves[..|moves| - 1]);
      if Enabled(before, moves[|moves| - 1]) then Next(before, moves[|moves| - 1]) else before
  }

  // ---------------------------------------------------------------------
  // The invariant
  // ---------------------------------------------------------------------

  function Dones(events: seq<Event>): nat {
    if events == [] then 0 else Dones(events[..|events| - 1]) + if events[|events| - 1].kind == Done then 1 else 0
  }

  predicate DoneSent(s: Session, out: nat) {
    out < |s.outputs| && Dones(s.outputs[out].events) > 0
  }

  predicate NotDone(f: Option<Flight>) {
    f.Some? ==> f.value.event.kind != Done
  }

  // The output that the end of the run has taken.
  function TakenOut(f: Finish): Option<nat> {
    match f
    case Working(_) => None
    case Returned(_) => None
    case Taken(out, _, _, _) => out
    case Saved(out, _, _) => out
    case Released(out, _, _) => out
    case Closing(out, _) => out
    case Ended(out, _) => out
  }

  predicate BeforeSave(f: Finish) {
    f.Working? || f.Returned? || f.Taken?
  }

  predicate AfterRelease(f: Finish) {
    f.Released? || f.Closing? || f.Ended?
  }

  predicate IsDone(e: Option<Event>) {
    e.Some? ==> e.value.kind == Done
  }

  // Where the end of the run stands.
  predicate FinishInv(s: Session) {
    && (!s.finish.Working? && !s.finish.Returned? ==> s.closed && s.current.None?)
    && (BeforeSave(s.finish) ==> s.finalSave.None?)
    && (s.finish.Taken? ==> s.finish.owes == s.owed)
    && (AfterRelease(s.finish) ==> !s.leased)
    && (!BeforeSave(s.finish) && s.finish.err.None? ==> s.finalSave == if s.owed then Some(true) else None)
    && (s.finalSave == Some(false) ==> s.finish.err == Some(SaveFailed))
    && IsDone(s.terminal) && (s.finish.Taken? || s.finish.Saved? || s.finish.Released? ==> IsDone(s.finish.terminal))
    && (s.finish.Working? ==> NotDone(s.finish.flight))
  }

  // EventDone is in the output that a run without failure has taken, and there
  // once, from the moment the terminal event was sent.
  predicate DoneInv(s: Session) {
    forall i :: 0 <= i < |s.outputs| ==>
      && Dones(s.outputs[i].events) <= 1
      && (Dones(s.outputs[i].events) == 1 ==> s.finish == Closing(Some(i), None) || s.finish == Ended(Some(i), None))
  }

  predicate CarriesInv(s: Session) {
    forall k :: 0 <= k < |s.carries| ==> CarryInv(s.carries[k])
  }

  predicate CarryInv(c: Carry) {
    NotDone(c.flight) && forall e :: e in c.rest ==> e.kind != Done
  }

  predicate Inv(s: Session) {
    FinishInv(s) && DoneInv(s) && CarriesInv(s)
  }

  lemma DonesOfLast(events: seq<Event>, e: Event)
    ensures Dones(events + [e]) == Dones(events) + if e.kind == Done then 1 else 0
  {
    assert (events + [e])[..|events|] == events;
  }

  // Sending anything else, and closing, leaves the terminal events alone.
  predicate SameDones(s: Session, t: Session) {
    && |s.outputs| == |t.outputs| && t == s.(outputs := t.outputs, stateErr := t.stateErr)
    && forall i :: 0 <= i < |s.outputs| ==> Dones(t.outputs[i].events) == Dones(s.outputs[i].events)
  }

  lemma DeliverKeepsDones(s: Session, f: Flight, full: bool)
    requires f.event.kind != Done
    ensures SameDones(s, Deliver(s, f, full))
  {
    hide Dones;
    if f.out < |s.outputs| {
      DonesOfLast(s.outputs[f.out].events, f.event);
    }
  }

  lemma CloseKeepsDones(s: Session, out: nat, err: Option<Failure>)
    ensures SameDones(s, CloseOutput(s, out, err))
  {
    hide Dones;
  }

  lemma TerminalKeepsInv(s: Session, full: bool)
    requires Inv(s) && s.finish.Released?
    ensures Inv(Terminal(s, full))
  {
    hide Dones;
    var f := s.finish;
    if f.out.Some? && f.out.value < |s.outputs| && f.err.None? && f.terminal.Some? {
      DonesOfLast(s.outputs[f.out.value].events, f.terminal.value);
    }
  }

  lemma AddressKeepsInv(s: Session, e: Event, overLimit: bool)
    requires Inv(s)
    ensures var (t, flight) := Address(s, e, overLimit); t == s.(stateErr := t.stateErr, terminal := t.terminal) && NotDone(flight) && Inv(t)
  {
    hide Dones;
  }

  lemma EmitKeepsInv(s: Session, e: Event, overLimit: bool)
    requires Inv(s) && Enabled(s, EngineEmit(e, overLimit))
    ensures Inv(Next(s, EngineEmit(e, overLimit)))
  {
    hide FinishNext, CloserNext, CarryNext, Dones, Address;
    AddressKeepsInv(s, e, overLimit);
  }

  lemma EngineSendKeepsInv(s: Session, full: bool)
    requires Inv(s) && Enabled(s, EngineSend(full))
    ensures Inv(Next(s, EngineSend(full)))
  {
    hide FinishNext, CloserNext, CarryNext, Dones, Deliver;
    DeliverKeepsDones(s, s.finish.flight.value, full);
  }

  lemma CloseFinalKeepsInv(s: Session)
    requires Inv(s) && Enabled(s, CloseFinal)
    ensures Inv(Next(s, CloseFinal))
  {
    hide EngineNext, CloserNext, CarryNext, Dones, CloseOutput;
    if s.finish.out.Some? {
      CloseKeepsDones(s, s.finish.out.value, s.finish.err);
    }
  }

  lemma CloserKeepsInv(s: Session, m: Move)
    requires Inv(s) && Enabled(s, m) && (m.Park? || m.ParkSave? || m.CloseAs? || m.Cancel? || m.CancelRelease?)
    ensures Inv(Next(s, m))
  {
    hide EngineNext, FinishNext, CarryNext, Dones, CloseOutput;
    if m.CloseAs? {
      CloseKeepsDones(s, s.closers[m.k].out, s.closers[m.k].err);
    }
  }

  lemma FullQueueKeepsInv(s: Session, k: nat)
    requires Inv(s) && Enabled(s, ResultsDoNotFit(k))
    ensures Inv(Next(s, ResultsDoNotFit(k)))
  {
    hide EngineNext, FinishNext, CloserNext, Dones, CloseOutput;
    var out := s.carries[k].out;
    CloseKeepsDones(s.(current := if s.current == Some(out) then None else s.current), out, Some(QueueFull));
  }

  lemma ResumeKeepsInv(s: Session, carry: seq<Event>)
    requires Inv(s) && Enabled(s, Resume(carry))
    ensures Inv(Next(s, Resume(carry)))
  {
    hide EngineNext, FinishNext, CloserNext;
    assert Dones(NEW_OUTPUT.events) == 0;
    hide Dones;
  }

  lemma CarryEmitKeepsInv(s: Session, k: nat, overLimit: bool)
    requires Inv(s) && Enabled(s, CarryEmit(k, overLimit))
    ensures Inv(Next(s, CarryEmit(k, overLimit)))
  {
    hide EngineNext, FinishNext, CloserNext, DoneInv, FinishInv, Address;
    AddressKeepsInv(s, s.carries[k].rest[0], overLimit);
    assert CarryInv(s.carries[k]) && forall e :: e in s.carries[k].rest[1..] ==> e in s.carries[k].rest;
    var t := Next(s, CarryEmit(k, overLimit));
    CarriesAreApart(Address(s, s.carries[k].rest[0], overLimit).0, t.carries);
  }

  // The other parts of the invariant do not look at the carries.
  lemma CarriesAreApart(s: Session, carries: seq<Carry>)
    ensures var t := s.(carries := carries); (FinishInv(t) <==> FinishInv(s)) && (DoneInv(t) <==> DoneInv(s))
  {
    hide Dones;
  }

  lemma CarrySendKeepsInv(s: Session, k: nat, full: bool)
    requires Inv(s) && Enabled(s, CarrySend(k, full))
    ensures Inv(Next(s, CarrySend(k, full)))
  {
    hide EngineNext, FinishNext, CloserNext, Dones, Deliver;
    assert CarryInv(s.carries[k]);
    DeliverKeepsDones(s, s.carries[k].flight.value, full);
  }

  lemma ReturnKeepsInv(s: Session, err: Option<Failure>)
    requires Inv(s) && Enabled(s, EngineReturn(err))
    ensures Inv(Next(s, EngineReturn(err)))
  {
    hide FinishNext, CloserNext, CarryNext, Dones;
  }

  lemma FinishKeepsInv(s: Session, m: Move)
    requires Inv(s) && Enabled(s, m) && (m.TakeOutput? || m.SaveFinal? || m.ReleaseFinal?)
    ensures Inv(Next(s, m))
  {
    hide EngineNext, CloserNext, CarryNext, Dones, Terminal, CloseOutput;
  }

  lemma NextKeepsInv(s: Session, m: Move)
    requires Inv(s) && Enabled(s, m)
    ensures Inv(Next(s, m))
  {
    hide Inv, EngineNext, FinishNext, CloserNext, CarryNext;
    match m {
      case EngineEmit(e, overLimit) => EmitKeepsInv(s, e, overLimit);
      case EngineSend(full) => EngineSendKeepsInv(s, full);
      case EngineReturn(err) => ReturnKeepsInv(s, err);
      case SendTerminal(full) =>
        TerminalKeepsInv(s, full);
        TerminalIsNext(s, full);
      case CloseFinal => CloseFinalKeepsInv(s);
      case Resume(carry) => ResumeKeepsInv(s, carry);
      case CarryEmit(k, overLimit) => CarryEmitKeepsInv(s, k, overLimit);
      case CarrySend(k, full) => CarrySendKeepsInv(s, k, full);
      case ResultsDoNotFit(k) => FullQueueKeepsInv(s, k);
      case TakeOutput => FinishKeepsInv(s, m);
      case SaveFinal(_) => FinishKeepsInv(s, m);
      case ReleaseFinal => FinishKeepsInv(s, m);
      case _ => CloserKeepsInv(s, m);
    }
  }

  lemma TerminalIsNext(s: Session, full: bool)
    requires Enabled(s, SendTerminal(full))
    ensures Next(s, SendTerminal(full)) == Terminal(s, full)
  {
    hide EngineNext, CloserNext, CarryNext, Terminal;
  }

  lemma {:induction false} ReachKeepsInv(s: Session, moves: seq<Move>)
    requires Inv(s)
    ensures Inv(Reach(s, moves))
  {
    hide Inv, Enabled, Next;
    if moves != [] {
      ReachKeepsInv(s, moves[..|moves| - 1]);
      var before := Reach(s, moves[..|moves| - 1]);
      if Enabled(before, moves[|moves| - 1]) {
        NextKeepsInv(before, moves[|moves| - 1]);
      }
    }
  }

  lemma NewSessionInv(history: bool, owes: bool)
    ensures Inv(NewSession(history, owes)) && OwnInv(NewSession(history, owes), {})
  {}

  // EventDone reaches an output at most once, and only when the snapshot that the
  // last segment owed was saved and the lease released.
  lemma DoneAfterSaves(history: bool, owes: bool, moves: seq<Move>, i: nat)
    requires DoneSent(Reach(NewSession(history, owes), moves), i)
    ensures var s := Reach(NewSession(history, owes), moves);
            && Dones(s.outputs[i].events) == 1 && !s.leased && s.finalSave == (if s.owed then Some(true) else None)
            && forall j :: 0 <= j < |s.outputs| && j != i ==> Dones(s.outputs[j].events) == 0
  {
    NewSessionInv(history, owes);
    ReachKeepsInv(NewSession(history, owes), moves);
    hide Reach, NewSession, Dones;
  }

  // ---------------------------------------------------------------------
  // Who closes an output
  // ---------------------------------------------------------------------

  // The output that a move closes because the results of its resume do not fit
  // into the queue: one that is still open.
  function RefusedBy(s: Session, m: Move): set<nat> {
    if m.ResultsDoNotFit? && Enabled(s, m) && s.carries[m.k].out < |s.outputs| && !s.outputs[s.carries[m.k].out].closed
    then {s.carries[m.k].out} else {}
  }

  // The outputs that a run closes in this way, before anybody else closes them.
  function Refused(s: Session, moves: seq<Move>): set<nat> {
    if moves == [] then {}
    else Refused(s, moves[..|moves| - 1]) + RefusedBy(Reach(s, moves[..|moves| - 1]), moves[|moves| - 1])
  }

  // An output that somebody still has to close is open, unless it was refused.
  predicate Closable(s: Session, out: nat, refused: set<nat>) {
    out < |s.outputs| && (s.outputs[out].closed <==> out in refused)
  }

  predicate ClosedAs(s: Session, out: nat, err: Option<Failure>, refused: set<nat>) {
    && out < |s.outputs| && s.outputs[out].closed
    && s.outputs[out].result == if out in refused then Some(QueueFull) else err
  }

  predicate CloserInv(s: Session, k: nat, refused: set<nat>)
    requires k < |s.closers|
  {
    var c := s.closers[k];
    && Some(c.out) != s.current && Some(c.out) != TakenOut(s.finish)
    && (if c.HasClosed? then ClosedAs(s, c.out, c.err, refused) else Closable(s, c.out, refused))
    && forall j :: 0 <= j < k ==> s.closers[j].out != c.out
  }

  // Every output is handed on to exactly one closer.
  predicate OwnInv(s: Session, refused: set<nat>) {
    && (s.current.Some? ==> Closable(s, s.current.value, refused) && s.current != TakenOut(s.finish))
    && (TakenOut(s.finish).Some? ==>
          if s.finish.Ended? then ClosedAs(s, s.finish.out.value, s.finish.err, refused)
          else Closable(s, TakenOut(s.finish).value, refused))
    && (forall k :: 0 <= k < |s.closers| ==> CloserInv(s, k, refused))
    && (forall k :: 0 <= k < |s.carries| ==> s.carries[k].out < |s.outputs|)
    && (forall out :: out in refused ==> ClosedAs(s, out, Some(QueueFull), refused))
  }

  // Changes that neither open nor close outputs nor move them around.
  predicate SameOwners(s: Session, t: Session) {
    && t.current == s.current && TakenOut(t.finish) == TakenOut(s.finish) && (t.finish.Ended? <==> s.finish.Ended?)
    && (t.finish.Ended? ==> t.finish == s.finish) && |t.carries| == |s.carries| && t.closers == s.closers
    && (forall k :: 0 <= k < |s.carries| ==> t.carries[k].out == s.carries[k].out)
    && |t.outputs| == |s.outputs|
    && forall i :: 0 <= i < |s.outputs| ==> t.outputs[i].closed == s.outputs[i].closed && t.outputs[i].result == s.outputs[i].result
  }

  lemma SameOwnersKeepOwnInv(s: Session, t: Session, refused: set<nat>)
    requires OwnInv(s, refused) && SameOwners(s, t)
    ensures OwnInv(t, refused)
  {
    forall k | 0 <= k < |t.closers|
      ensures CloserInv(t, k, refused)
    {
      assert CloserInv(s, k, refused);
    }
  }

  lemma DeliverKeepsOwners(s: Session, f: Flight, full: bool)
    ensures SameOwners(s, Deliver(s, f, full)) && Deliver(s, f, full).finish == s.finish && Deliver(s, f, full).carries == s.carries
  {
    hide TakenOut;
  }

  lemma TerminalKeepsOwners(s: Session, full: bool)
    requires s.finish.Released?
    ensures SameOwners(s, Terminal(s, full))
  {}

  lemma AddressKeepsOwners(s: Session, e: Event, overLimit: bool)
    ensures var t := Address(s, e, overLimit).0; t == s.(stateErr := t.stateErr, terminal := t.terminal)
  {}

  lemma CarryMoveKeepsOwners(s: Session, m: Move)
    requires Enabled(s, m) && (m.CarryEmit? || m.CarrySend?)
    ensures SameOwners(s, Next(s, m))
  {
    hide EngineNext, FinishNext, CloserNext, Deliver, Address;
    if m.CarryEmit? {
      AddressKeepsOwners(s, s.carries[m.k].rest[0], m.overLimit);
    } else {
      DeliverKeepsOwners(s, s.carries[m.k].flight.value, m.full);
    }
  }

  lemma EngineMoveKeepsOwners(s: Session, m: Move)
    requires Enabled(s, m) && (m.EngineEmit? || m.EngineSend? || m.SendTerminal?)
    ensures SameOwners(s, Next(s, m))
  {
    hide CloserNext, CarryNext, Deliver, Terminal, Address;
    match m {
      case EngineEmit(e, overLimit) => AddressKeepsOwners(s, e, overLimit);
      case EngineSend(full) => DeliverKeepsOwners(s, s.finish.flight.value, full);
      case SendTerminal(full) => TerminalKeepsOwners(s, full);
    }
  }

  lemma StepMoveKeepsOwners(s: Session, m: Move)
    requires Enabled(s, m) && (m.EngineReturn? || m.SaveFinal? || m.ReleaseFinal? || m.CancelRelease?)
    ensures SameOwners(s, Next(s, m))
  {
    hide Deliver, Terminal, Address, CloseOutput;
  }

  lemma QuietMoveKeepsOwners(s: Session, m: Move)
    requires Enabled(s, m)
    requires m.EngineEmit? || m.EngineSend? || m.EngineReturn? || m.SaveFinal? || m.ReleaseFinal? || m.SendTerminal? || m.CarryEmit? || m.CarrySend?
             || m.CancelRelease?
    ensures SameOwners(s, Next(s, m))
  {
    hide Enabled, Next, SameOwners;
    if m.CarryEmit? || m.CarrySend? {
      CarryMoveKeepsOwners(s, m);
    } else if m.EngineEmit? || m.EngineSend? || m.SendTerminal? {
      EngineMoveKeepsOwners(s, m);
    } else {
      StepMoveKeepsOwners(s, m);
    }
  }

  lemma TakeKeepsOwnInv(s: Session, refused: set<nat>)
    requires OwnInv(s, refused) && Enabled(s, TakeOutput)
    ensures OwnInv(Next(s, TakeOutput), refused)
  {
    hide EngineNext, CloserNext, CarryNext;
    var t := Next(s, TakeOutput);
    forall k | 0 <= k < |t.closers|
      ensures CloserInv(t, k, refused)
    {
      assert CloserInv(s, k, refused);
    }
  }

  lemma CloseFinalKeepsOwnInv(s: Session, refused: set<nat>)
    requires OwnInv(s, refused) && Enabled(s, CloseFinal)
    ensures OwnInv(Next(s, CloseFinal), refused)
  {
    hide EngineNext, CloserNext, CarryNext, Deliver, Terminal, Address;
    var t := Next(s, CloseFinal);
    forall k | 0 <= k < |t.closers|
      ensures CloserInv(t, k, refused)
    {
      assert CloserInv(s, k, refused);
    }
  }

  lemma ParkKeepsOwnInv(s: Session, m: Move, refused: set<nat>)
    requires OwnInv(s, refused) && Enabled(s, m) && (m.Park? || m.Cancel?)
    ensures OwnInv(Next(s, m), refused)
  {
    hide EngineNext, FinishNext, CarryNext;
    var t := Next(s, m);
    forall k | 0 <= k < |t.closers|
      ensures CloserInv(t, k, refused)
    {
      if k < |s.closers| {
        assert CloserInv(s, k, refused);
      } else {
        forall j | 0 <= j < |s.closers|
          ensures Some(s.closers[j].out) != s.current
        {
          assert CloserInv(s, j, refused);
        }
      }
    }
  }

  lemma CloserKeepsOwnInv(s: Session, m: Move, refused: set<nat>)
    requires OwnInv(s, refused) && Enabled(s, m) && (m.ParkSave? || m.CloseAs?)
    ensures OwnInv(Next(s, m), refused)
  {
    hide EngineNext, FinishNext, CarryNext;
    var t := Next(s, m);
    assert CloserInv(s, m.k, refused);
    forall k | 0 <= k < |t.closers|
      ensures CloserInv(t, k, refused)
    {
      assert CloserInv(s, k, refused);
    }
  }

  lemma ResumeKeepsOwnInv(s: Session, carry: seq<Event>, refused: set<nat>)
    requires OwnInv(s, refused) && FinishInv(s) && Enabled(s, Resume(carry))
    ensures OwnInv(Next(s, Resume(carry)), refused)
  {
    hide EngineNext, FinishNext, CloserNext;
    var t := Next(s, Resume(carry));
    forall k | 0 <= k < |t.closers|
      ensures CloserInv(t, k, refused)
    {
      assert CloserInv(s, k, refused);
    }
  }

  lemma FullQueueKeepsOwnInv(s: Session, k: nat, refused: set<nat>)
    requires OwnInv(s, refused) && Enabled(s, ResultsDoNotFit(k))
    ensures OwnInv(Next(s, ResultsDoNotFit(k)), refused + RefusedBy(s, ResultsDoNotFit(k)))
  {
    hide EngineNext, FinishNext, CloserNext;
    var t := Next(s, ResultsDoNotFit(k));
    forall j | 0 <= j < |t.closers|
      ensures CloserInv(t, j, refused + RefusedBy(s, ResultsDoNotFit(k)))
    {
      assert CloserInv(s, j, refused);
    }
  }

  lemma NextKeepsOwnInv(s: Session, m: Move, refused: set<nat>)
    requires OwnInv(s, refused) && FinishInv(s) && Enabled(s, m)
    ensures OwnInv(Next(s, m), refused + RefusedBy(s, m))
  {
    hide OwnInv, FinishInv, Next, SameOwners, RefusedBy;
    if !m.ResultsDoNotFit? {
      NothingRefused(s, m, refused);
    }
    match m {
      case TakeOutput => TakeKeepsOwnInv(s, refused);
      case CloseFinal => CloseFinalKeepsOwnInv(s, refused);
      case Park => ParkKeepsOwnInv(s, m, refused);
      case Cancel => ParkKeepsOwnInv(s, m, refused);
      case ParkSave(_, _) => CloserKeepsOwnInv(s, m, refused);
      case CloseAs(_) => CloserKeepsOwnInv(s, m, refused);
      case Resume(carry) => ResumeKeepsOwnInv(s, carry, refused);
      case ResultsDoNotFit(k) => FullQueueKeepsOwnInv(s, k, refused);
      case _ =>
        QuietMoveKeepsOwners(s, m);
        SameOwnersKeepOwnInv(s, Next(s, m), refused);
    }
  }

  lemma {:induction false} ReachKeepsOwnInv(s: Session, moves: seq<Move>)
    requires Inv(s) && OwnInv(s, {})
    ensures Inv(Reach(s, moves)) && OwnInv(Reach(s, moves), Refused(s, moves))
  {
    hide DoneInv, CarriesInv, FinishInv, OwnInv, Enabled, Next, RefusedBy;
    if moves != [] {
      ReachKeepsOwnInv(s, moves[..|moves| - 1]);
      var (before, m) := (Reach(s, moves[..|moves| - 1]), moves[|moves| - 1]);
      if Enabled(before, m) {
        NextKeepsInv(before, m);
        NextKeepsOwnInv(before, m, Refused(s, moves[..|moves| - 1]));
      } else {
        NothingRefused(before, m, Refused(s, moves[..|moves| - 1]));
      }
    }
  }

  lemma NothingRefused(s: Session, m: Move, refused: set<nat>)
    requires !Enabled(s, m) || !m.ResultsDoNotFit?
    ensures refused + RefusedBy(s, m) == refused
  {
    hide Enabled;
  }

  // A failed save closes its output with that error: at the end of the run, or of
  // a parked segment.
  predicate ClosedAfterFailedSave(s: Session, out: nat) {
    || (s.finalSave == Some(false) && s.finish == Ended(Some(out), Some(SaveFailed)))
    || exists k :: 0 <= k < |s.closers| && s.closers[k] == HasClosed(out, Some(SaveFailed))
  }

  // A failed save is the result of its output exactly when the results of a resume
  // did not close the output first, because they did not fit into the queue; then
  // that is the result.  EventDone is not in it either way.
  lemma FailedSaveIsTheResult(history: bool, owes: bool, moves: seq<Move>, out: nat)
    requires ClosedAfterFailedSave(Reach(NewSession(history, owes), moves), out)
    ensures var (s, refused) := (Reach(NewSession(history, owes), moves), Refused(NewSession(history, owes), moves));
            && out < |s.outputs| && s.outputs[out].closed && Dones(s.outputs[out].events) == 0
            && (s.outputs[out].result == Some(SaveFailed) <==> out !in refused)
            && (s.outputs[out].result == Some(QueueFull) <==> out in refused)
  {
    NewSessionInv(history, owes);
    ReachKeepsOwnInv(NewSession(history, owes), moves);
    hide Reach, NewSession, Dones, Refused;
    var s := Reach(NewSession(history, owes), moves);
    if !(s.finalSave == Some(false) && s.finish == Ended(Some(out), Some(SaveFailed))) {
      var k :| 0 <= k < |s.closers| && s.closers[k] == HasClosed(out, Some(SaveFailed));
      assert CloserInv(s, k, Refused(NewSession(history, owes), moves));
    }
  }

  // A save that failed at the end of the run leaves no EventDone anywhere, and is
  // what the run ends with.
  lemma FailedFinalSaveEndsTheRun(history: bool, owes: bool, moves: seq<Move>)
    requires Reach(NewSession(history, owes), moves).finalSave == Some(false)
    ensures var s := Reach(NewSession(history, owes), moves);
            && !BeforeSave(s.finish) && s.finish.err == Some(SaveFailed)
            && forall i :: 0 <= i < |s.outputs| ==> Dones(s.outputs[i].events) == 0
  {
    NewSessionInv(history, owes);
    ReachKeepsInv(NewSession(history, owes), moves);
    hide Reach, NewSession, Dones;
  }

  // One more move of a run.
  lemma Plays(s: Session, moves: seq<Move>, m: Move, t: Session, refused: set<nat>)
    requires Reach(s, moves) == t && Refused(s, moves) == refused && Enabled(t, m)
    ensures Reach(s, moves + [m]) == Next(t, m) && Refused(s, moves + [m]) == refused + RefusedBy(t, m)
  {
    hide Next, RefusedBy, Enabled;
    assert (moves + [m])[..|moves|] == moves;
  }

  // It does happen.  The queue holds as many results as a session may wait for, so
  // the first resume always fits.  A second Park, before the engine has accepted
  // its results, lets a second resume follow: with more than half of the queue
  // still taken, its results do not fit.  A third Park takes its output while they
  // are being queued, and the save of that segment fails.
  lemma FullQueueHidesFailedSave()
    ensures var moves := [Park, Resume([]), Park, Resume([]), Park, ResultsDoNotFit(1), ParkSave(2, false), CloseAs(2)];
            var s := Reach(NewSession(false, false), moves);
            && ClosedAfterFailedSave(s, 2) && 2 in Refused(NewSession(false, false), moves)
            && |s.outputs| == 3 && s.outputs[2].result == Some(QueueFull)
  {
    hide Reach, Refused, NewSession, Next, Enabled, RefusedBy;
    ThreeParks();
    var (s0, moves) := (NewSession(false, false), [Park, Resume([]), Park, Resume([]), Park]);
    var s5 := PARKED_AGAIN;
    FullQueueMoves(s5);
    Plays(s0, moves, ResultsDoNotFit(1), s5, {});
    var s6 := Next(s5, ResultsDoNotFit(1));
    Plays(s0, moves + [ResultsDoNotFit(1)], ParkSave(2, false), s6, {2});
    var s7 := Next(s6, ParkSave(2, false));
    Plays(s0, moves + [ResultsDoNotFit(1)] + [ParkSave(2, false)], CloseAs(2), s7, {2});
    assert moves + [ResultsDoNotFit(1)] + [ParkSave(2, false)] + [CloseAs(2)]
        == [Park, Resume([]), Park, Resume([]), Park, ResultsDoNotFit(1), ParkSave(2, false), CloseAs(2)];
    assert Next(s7, CloseAs(2)).closers[2] == HasClosed(2, Some(SaveFailed));
  }

  // The segments of two requests are parked, and the resume between them has not
  // finished.
  const TWICE_PARKED := Session(
    false, [NEW_OUTPUT, NEW_OUTPUT], None, false, None, None, true, false, Working(None),
    [Parking(0, false), Parking(1, true)], [Carry(1, [], None)], false, None)

  lemma TwoParks()
    ensures var (s, moves) := (NewSession(false, false), [Park, Resume([]), Park]);
            Reach(s, moves) == TWICE_PARKED && Refused(s, moves) == {}
  {
    hide Reach, Refused;
    var s0 := NewSession(false, false);
    ReachNothing(s0);
    Plays(s0, [], Park, s0, {});
    assert [] + [Park] == [Park];
    Plays(s0, [Park], Resume([]), Next(s0, Park), {});
    assert [Park] + [Resume([])] == [Park, Resume([])];
    Plays(s0, [Park, Resume([])], Park, Next(Next(s0, Park), Resume([])), {});
    assert [Park, Resume([])] + [Park] == [Park, Resume([]), Park];
  }

  // A third segment is parked, while the second resume is queueing its results.
  const PARKED_AGAIN := Session(
    false, [NEW_OUTPUT, NEW_OUTPUT, NEW_OUTPUT], None, false, None, None, true, false, Working(None),
    [Parking(0, false), Parking(1, true), Parking(2, true)], [Carry(1, [], None), Carry(2, [], None)], false, None)

  lemma ThreeParks()
    ensures var (s, moves) := (NewSession(false, false), [Park, Resume([]), Park, Resume([]), Park]);
            Reach(s, moves) == PARKED_AGAIN && Refused(s, moves) == {}
  {
    hide Reach, Refused;
    TwoParks();
    var (s, moves) := (NewSession(false, false), [Park, Resume([]), Park]);
    var s4 := Next(TWICE_PARKED, Resume([]));
    assert s4.carries == [Carry(1, [], None), Carry(2, [], None)] && s4.outputs == [NEW_OUTPUT, NEW_OUTPUT, NEW_OUTPUT];
    Plays(s, moves, Resume([]), TWICE_PARKED, {});
    Plays(s, moves + [Resume([])], Park, s4, {});
    assert moves + [Resume([])] + [Park] == [Park, Resume([]), Park, Resume([]), Park];
    assert Next(s4, Park).closers == [Parking(0, false), Parking(1, true), Parking(2, true)];
  }

  // The queue is full, the save fails, and Park closes the output too late.
  lemma FullQueueMoves(s: Session)
    requires s == PARKED_AGAIN
    ensures Enabled(s, ResultsDoNotFit(1)) && RefusedBy(s, ResultsDoNotFit(1)) == {2}
    ensures var t := Next(s, ResultsDoNotFit(1));
            && Enabled(t, ParkSave(2, false)) && RefusedBy(t, ParkSave(2, false)) == {}
            && var u := Next(t, ParkSave(2, false));
            && Enabled(u, CloseAs(2)) && RefusedBy(u, CloseAs(2)) == {}
            && var v := Next(u, CloseAs(2));
            && v.closers == [Parking(0, false), Parking(1, true), HasClosed(2, Some(SaveFailed))]
            && v.outputs == [NEW_OUTPUT, NEW_OUTPUT, Output([], true, Some(QueueFull))]
  {}

  lemma ReachNothing(s: Session)
    ensures Reach(s, []) == s && Refused(s, []) == {}
  {}

  // ---------------------------------------------------------------------
  // Whether EventDone stays last
  // ---------------------------------------------------------------------

  predicate LastIsDone(s: Session, out: nat) {
    out < |s.outputs| && s.outputs[out].events != [] && s.outputs[out].events[|s.outputs[out].events| - 1].kind == Done
  }

  // A carry event is on its way to the output.
  predicate InFlight(s: Session, out: nat) {
    exists k :: 0 <= k < |s.carries| && s.carries[k].flight.Some? && s.carries[k].flight.value.out == out
  }

  predicate NoFlight(s: Session, out: nat) {
    forall k :: 0 <= k < |s.carries| ==> CarryAvoids(s.carries[k], out)
  }

  predicate CarryAvoids(c: Carry, out: nat) {
    c.flight.Some? ==> c.flight.value.out != out
  }

  // After the terminal event was sent.
  predicate TerminalSent(s: Session, out: nat) {
    (s.finish == Closing(Some(out), None) || s.finish == Ended(Some(out), None)) && LastIsDone(s, out)
  }

  // Nothing more is put into the output.
  predicate Settled(s: Session, t: Session, out: nat) {
    && out < |s.outputs| <= |t.outputs| && t.outputs[out].events == s.outputs[out].events
    && (s.outputs[out].closed ==> t.outputs[out].closed)
  }

  lemma DeliverSettles(s: Session, f: Flight, full: bool, out: nat)
    requires out < |s.outputs| && (f.out != out || s.outputs[out].closed)
    ensures Settled(s, Deliver(s, f, full), out)
  {}

  lemma CloseSettles(s: Session, o: nat, err: Option<Failure>, out: nat)
    requires out < |s.outputs|
    ensures Settled(s, CloseOutput(s, o, err), out) && CloseOutput(s, o, err) == s.(outputs := CloseOutput(s, o, err).outputs)
  {}

  lemma CarryMoveKeepsLast(s: Session, m: Move, out: nat)
    requires Inv(s) && TerminalSent(s, out) && (NoFlight(s, out) || s.outputs[out].closed) && Enabled(s, m) && (m.CarryEmit? || m.CarrySend?)
    ensures var t := Next(s, m); Settled(s, t, out) && t.finish == s.finish && (NoFlight(t, out) || t.outputs[out].closed)
  {
    hide EngineNext, FinishNext, CloserNext, Dones, DoneInv, CarriesInv, Deliver, Address;
    if m.CarrySend? {
      var f := s.carries[m.k].flight.value;
      if NoFlight(s, out) {
        assert CarryAvoids(s.carries[m.k], out);
      }
      DeliverSettles(s, f, m.full, out);
      DeliverKeepsOwners(s, f, m.full);
    } else {
      NothingAddressed(s, s.carries[m.k].rest[0], m.overLimit);
    }
  }

  lemma NothingAddressed(s: Session, e: Event, overLimit: bool)
    requires s.current.None?
    ensures var (t, flight) := Address(s, e, overLimit); flight.None? && t == s.(stateErr := t.stateErr, terminal := t.terminal)
  {}

  lemma NextKeepsLast(s: Session, m: Move, out: nat)
    requires Inv(s) && TerminalSent(s, out) && (NoFlight(s, out) || s.outputs[out].closed) && Enabled(s, m)
    ensures var t := Next(s, m); TerminalSent(t, out) && (NoFlight(t, out) || t.outputs[out].closed)
    ensures Next(s, m).outputs[out].events == s.outputs[out].events
  {
    hide Dones, DoneInv, CarriesInv, CloseOutput, Deliver, Address;
    match m {
      case CarryEmit(_, _) => CarryMoveKeepsLast(s, m, out);
      case CarrySend(_, _) => CarryMoveKeepsLast(s, m, out);
      case CloseFinal => CloseSettles(s, out, s.finish.err, out);
      case CloseAs(k) => CloseSettles(s, s.closers[k].out, s.closers[k].err, out);
      case ResultsDoNotFit(k) =>
        var o := s.carries[k].out;
        CloseSettles(s.(current := if s.current == Some(o) then None else s.current), o, Some(QueueFull), out);
      case _ =>
    }
  }

  lemma {:induction false} ReachKeepsLast(s: Session, moves: seq<Move>, out: nat)
    requires Inv(s) && TerminalSent(s, out) && (NoFlight(s, out) || s.outputs[out].closed)
    ensures var t := Reach(s, moves);
            Inv(t) && TerminalSent(t, out) && (NoFlight(t, out) || t.outputs[out].closed) && t.outputs[out].events == s.outputs[out].events
  {
    hide Inv, Enabled, Next, NoFlight, TerminalSent;
    if moves != [] {
      ReachKeepsLast(s, moves[..|moves| - 1], out);
      var before := Reach(s, moves[..|moves| - 1]);
      SentExists(before, out);
      if Enabled(before, moves[|moves| - 1]) {
        NextKeepsInv(before, moves[|moves| - 1]);
        NextKeepsLast(before, moves[|moves| - 1], out);
      }
    }
  }

  lemma SentExists(s: Session, out: nat)
    requires TerminalSent(s, out)
    ensures out < |s.outputs|
  {}

  // EventDone is the last event of its output in every continuation exactly when,
  // as it is sent, no resume has a carry event on its way to the open output.
  lemma DoneStaysLastIff(s: Session, out: nat)
    requires Inv(s) && TerminalSent(s, out)
    ensures (forall moves :: LastIsDone(Reach(s, moves), out)) <==> !InFlight(s, out) || s.outputs[out].closed
  {
    if InFlight(s, out) && !s.outputs[out].closed {
      var k :| 0 <= k < |s.carries| && s.carries[k].flight.Some? && s.carries[k].flight.value.out == out;
      LateCarry(s, out, k);
    } else {
      forall moves
        ensures LastIsDone(Reach(s, moves), out)
      {
        ReachKeepsLast(s, moves, out);
      }
    }
  }

  lemma LateCarry(s: Session, out: nat, k: nat)
    requires Inv(s) && TerminalSent(s, out) && !s.outputs[out].closed
    requires k < |s.carries| && s.carries[k].flight.Some? && s.carries[k].flight.value.out == out
    ensures !LastIsDone(Reach(s, [CarrySend(k, false)]), out)
  {
    var m := CarrySend(k, false);
    assert [m][..0] == [];
    assert Reach(s, [m]) == Next(s, m);
    assert CarryInv(s.carries[k]);
  }

  lemma {:induction false} ReachConcatenation(s: Session, a: seq<Move>, b: seq<Move>)
    ensures Reach(s, a + b) == Reach(Reach(s, a), b)
  {
    hide Next, Enabled;
    if b == [] {
      assert a + b == a;
    } else {
      assert (a + b)[..|a + b| - 1] == a + b[..|b| - 1];
      ReachConcatenation(s, a, b[..|b| - 1]);
    }
  }

  lemma Follows(s: Session, moves: seq<Move>, m: Move, t: Session)
    requires Reach(s, moves) == t && Enabled(t, m)
    ensures Reach(s, moves + [m]) == Next(t, m)
  {
    hide Next, Enabled;
    assert (moves + [m])[..|moves|] == moves;
  }

  // The first resume has addressed its carry event.
  function CarryStarted(e: Event): Session {
    Session(
      false, [NEW_OUTPUT, NEW_OUTPUT], Some(1), false, None, None, true, true, Working(None),
      [Parking(0, false)], [Carry(1, [], Some(Flight(e, 1)))], false, None)
  }

  // After a second Park, before the engine has accepted the results of the resume
  // after the first one, a second resume is about to emit its carry.
  function ResumedTwice(e: Event): Session {
    Session(
      false, [NEW_OUTPUT, Output([e], false, None), NEW_OUTPUT], Some(2), false, None, None, true, true, Working(None),
      [Parking(0, false), Parking(1, true)], [Carry(1, [], None), Carry(2, [e], None)], false, None)
  }

  // The carry event has its output, but the engine returns first ...
  function EngineReturned(e: Event, done: Event): Session {
    ResumedTwice(e).(terminal := Some(done), finish := Returned(None),
                     carries := [Carry(1, [], None), Carry(2, [], Some(Flight(e, 2)))])
  }

  // ... and the run sends its terminal event.
  function FinishedFirst(e: Event, done: Event): Session {
    Session(
      false, [NEW_OUTPUT, Output([e], false, None), Output([done], false, None)], None, true, None, Some(done), false, false,
      Closing(Some(2), None), [Parking(0, false), Parking(1, true)],
      [Carry(1, [], None), Carry(2, [], Some(Flight(e, 2)))], true, Some(true))
  }

  function ResumeTwice(e: Event): seq<Move> {
    [Park, Resume([e]), CarryEmit(0, false), CarrySend(0, false), Park, Resume([e])]
  }

  function FinishFirst(done: Event): seq<Move> {
    [CarryEmit(1, false), EngineEmit(done, false), EngineReturn(None), TakeOutput, SaveFinal(true), ReleaseFinal, SendTerminal(false)]
  }

  lemma FirstResumeMoves(e: Event)
    requires e.kind != Done
    ensures var s := NewSession(false, false);
            && Enabled(s, Park)
            && var s1 := Next(s, Park);
            && Enabled(s1, Resume([e]))
            && var s2 := Next(s1, Resume([e]));
            && Enabled(s2, CarryEmit(0, false))
            && Next(s2, CarryEmit(0, false)) == CarryStarted(e)
  {
    hide FinishNext, EngineNext;
    var s2 := Next(Next(NewSession(false, false), Park), Resume([e]));
    assert s2.outputs == [NEW_OUTPUT, NEW_OUTPUT] && s2.carries == [Carry(1, [e], None)] && s2.current == Some(1);
    assert [e][1..] == [];
    assert Next(s2, CarryEmit(0, false)) == s2.(carries := [Carry(1, [], Some(Flight(e, 1)))]);
  }

  lemma SecondResumeMoves(e: Event)
    requires e.kind != Done
    ensures var s3 := CarryStarted(e);
            && Enabled(s3, CarrySend(0, false))
            && var s4 := Next(s3, CarrySend(0, false));
            && Enabled(s4, Park)
            && var s5 := Next(s4, Park);
            && Enabled(s5, Resume([e])) && Next(s5, Resume([e])) == ResumedTwice(e)
  {
    hide FinishNext, EngineNext;
    assert NEW_OUTPUT.events + [e] == [e];
    var s4 := Next(CarryStarted(e), CarrySend(0, false));
    assert s4.outputs == [NEW_OUTPUT, Output([e], false, None)] && s4.carries == [Carry(1, [], None)];
    var s6 := Next(Next(s4, Park), Resume([e]));
    assert s6.outputs == [NEW_OUTPUT, Output([e], false, None), NEW_OUTPUT];
    assert s6.carries == [Carry(1, [], None), Carry(2, [e], None)] && s6.closers == [Parking(0, false), Parking(1, true)];
  }

  lemma ResumesTwice(e: Event)
    requires e.kind != Done
    ensures Reach(NewSession(false, false), ResumeTwice(e)) == ResumedTwice(e)
  {
    hide Reach, Next, Enabled, NewSession, CarryStarted, ResumedTwice;
    FirstResumeMoves(e);
    SecondResumeMoves(e);
    var (s, moves) := (NewSession(false, false), ResumeTwice(e));
    ReachNothing(s);
    assert moves[..0] == [];
    Follows(s, moves[..0], Park, s);
    var s1 := Next(s, Park);
    assert moves[..0] + [Park] == moves[..1];
    Follows(s, moves[..1], Resume([e]), s1);
    var s2 := Next(s1, Resume([e]));
    assert moves[..1] + [Resume([e])] == moves[..2];
    Follows(s, moves[..2], CarryEmit(0, false), s2);
    var s3 := Next(s2, CarryEmit(0, false));
    assert moves[..2] + [CarryEmit(0, false)] == moves[..3];
    Follows(s, moves[..3], CarrySend(0, false), s3);
    var s4 := Next(s3, CarrySend(0, false));
    assert moves[..3] + [CarrySend(0, false)] == moves[..4];
    Follows(s, moves[..4], Park, s4);
    assert moves[..4] + [Park] == moves[..5];
    Follows(s, moves[..5], Resume([e]), Next(s4, Park));
    assert moves[..5] + [Resume([e])] == moves;
  }

  lemma EngineMoves(e: Event, done: Event)
    requires e.kind != Done && done.kind == Done
    ensures var s := ResumedTwice(e);
            && Enabled(s, CarryEmit(1, false))
            && var s1 := Next(s, CarryEmit(1, false));
            && Enabled(s1, EngineEmit(done, false))
            && var s2 := Next(s1, EngineEmit(done, false));
            && Enabled(s2, EngineReturn(None)) && Next(s2, EngineReturn(None)) == EngineReturned(e, done)
  {
    hide CloserNext, FinishNext;
    var s := ResumedTwice(e);
    assert [e][1..] == [];
    var s1 := Next(s, CarryEmit(1, false));
    assert s1.carries == [Carry(1, [], None), Carry(2, [], Some(Flight(e, 2)))];
    assert s1 == s.(carries := s1.carries);
    var s2 := Next(s1, EngineEmit(done, false));
    assert s2 == s1.(terminal := Some(done));
  }

  lemma EndMoves(e: Event, done: Event)
    ensures var s3 := EngineReturned(e, done);
            && Enabled(s3, TakeOutput)
            && var s4 := Next(s3, TakeOutput);
            && Enabled(s4, SaveFinal(true))
            && var s5 := Next(s4, SaveFinal(true));
            && Enabled(s5, ReleaseFinal)
            && var s6 := Next(s5, ReleaseFinal);
            && Enabled(s6, SendTerminal(false)) && Next(s6, SendTerminal(false)) == FinishedFirst(e, done)
  {
    hide CloserNext, EngineNext, CarryNext;
    var s3 := EngineReturned(e, done);
    assert NEW_OUTPUT.events + [done] == [done];
    var s6 := Next(Next(Next(s3, TakeOutput), SaveFinal(true)), ReleaseFinal);
    assert s6.finish == Released(Some(2), None, Some(done)) && s6.outputs == s3.outputs;
    assert Next(s6, SendTerminal(false)).outputs == [NEW_OUTPUT, Output([e], false, None), Output([done], false, None)];
  }

  lemma FinishesFirst(e: Event, done: Event)
    requires e.kind != Done && done.kind == Done
    ensures Reach(ResumedTwice(e), FinishFirst(done)) == FinishedFirst(e, done)
  {
    hide Reach, Next, Enabled, ResumedTwice, EngineReturned, FinishedFirst;
    EngineMoves(e, done);
    EndMoves(e, done);
    var (s, moves) := (ResumedTwice(e), FinishFirst(done));
    ReachNothing(s);
    assert moves[..0] == [];
    Follows(s, moves[..0], CarryEmit(1, false), s);
    var s1 := Next(s, CarryEmit(1, false));
    assert moves[..0] + [CarryEmit(1, false)] == moves[..1];
    Follows(s, moves[..1], EngineEmit(done, false), s1);
    var s2 := Next(s1, EngineEmit(done, false));
    assert moves[..1] + [EngineEmit(done, false)] == moves[..2];
    Follows(s, moves[..2], EngineReturn(None), s2);
    var s3 := Next(s2, EngineReturn(None));
    assert moves[..2] + [EngineReturn(None)] == moves[..3];
    Follows(s, moves[..3], TakeOutput, s3);
    var s4 := Next(s3, TakeOutput);
    assert moves[..3] + [TakeOutput] == moves[..4];
    Follows(s, moves[..4], SaveFinal(true), s4);
    var s5 := Next(s4, SaveFinal(true));
    assert moves[..4] + [SaveFinal(true)] == moves[..5];
    Follows(s, moves[..5], ReleaseFinal, s5);
    assert moves[..5] + [ReleaseFinal] == moves[..6];
    Follows(s, moves[..6], SendTerminal(false), Next(s5, ReleaseFinal));
    assert moves[..6] + [SendTerminal(false)] == moves;
  }

  // It does happen, with any carry event: the engine accepts the results of the
  // first resume and finishes while the second one is emitting its carry.
  lemma CarryLandsAfterDone(e: Event, done: Event)
    requires e.kind != Done && done.kind == Done
    ensures var s := Reach(NewSession(false, false), ResumeTwice(e) + FinishFirst(done));
            && TerminalSent(s, 2) && InFlight(s, 2) && !s.outputs[2].closed
            && !LastIsDone(Reach(NewSession(false, false), ResumeTwice(e) + FinishFirst(done) + [CarrySend(1, false)]), 2)
  {
    hide Reach, Next, LastIsDone, NewSession, ResumedTwice, ResumeTwice, FinishFirst;
    var (s, moves) := (NewSession(false, false), ResumeTwice(e) + FinishFirst(done));
    ResumesTwice(e);
    FinishesFirst(e, done);
    ReachConcatenation(s, ResumeTwice(e), FinishFirst(done));
    ReachConcatenation(s, moves, [CarrySend(1, false)]);
    FinishedIsSent(e, done);
    var t := Reach(s, moves);
    assert t.carries[1].flight.Some? && t.carries[1].flight.value.out == 2;
    NewSessionInv(false, false);
    ReachKeepsInv(s, moves);
    LateCarry(t, 2, 1);
  }

  lemma FinishedIsSent(e: Event, done: Event)
    requires done.kind == Done
    ensures TerminalSent(FinishedFirst(e, done), 2)
  {}

  // Sessions without a billing carry never have one on its way.
  predicate Uncarried(moves: seq<Move>) {
    forall m :: m in moves && m.Resume? ==> m.carry == []
  }

  predicate NoCarry(s: Session) {
    forall k :: 0 <= k < |s.carries| ==> Idle(s.carries[k])
  }

  predicate Idle(c: Carry) {
    c.rest == [] && c.flight.None?
  }

  lemma {:induction false} NothingCarried(s: Session, moves: seq<Move>)
    requires Uncarried(moves) && NoCarry(s)
    ensures NoCarry(Reach(s, moves))
  {
    hide Next, Enabled, NoCarry;
    if moves != [] {
      var (rest, m) := (moves[..|moves| - 1], moves[|moves| - 1]);
      assert forall x :: x in rest ==> x in moves;
      NothingCarried(s, rest);
      if Enabled(Reach(s, rest), m) {
        assert m in moves;
        NextCarriesNothing(Reach(s, rest), m);
      }
    }
  }

  lemma NextCarriesNothing(s: Session, m: Move)
    requires Enabled(s, m) && NoCarry(s) && (m.Resume? ==> m.carry == [])
    ensures NoCarry(Next(s, m))
  {
    hide CloseOutput, Deliver, Address, Terminal;
    assert !m.CarryEmit? && !m.CarrySend? by {
      if m.CarryEmit? || m.CarrySend? {
        IdleDoesNothing(s, m);
      }
    }
    match m {
      case EngineEmit(e, overLimit) => AddressKeepsOwners(s, e, overLimit);
      case EngineSend(full) => DeliverKeepsOwners(s, s.finish.flight.value, full);
      case SendTerminal(full) => TerminalKeepsCarries(s, full);
      case CloseFinal => CloseKeepsCarries(s);
      case CloseAs(_) => CloseKeepsCarries(s);
      case ResultsDoNotFit(_) => CloseKeepsCarries(s);
      case _ =>
    }
  }

  lemma IdleDoesNothing(s: Session, m: Move)
    requires NoCarry(s) && (m.CarryEmit? || m.CarrySend?)
    ensures !Enabled(s, m)
  {
    if m.k < |s.carries| {
      assert Idle(s.carries[m.k]);
    }
  }

  lemma TerminalKeepsCarries(s: Session, full: bool)
    requires s.finish.Released?
    ensures Terminal(s, full).carries == s.carries
  {}

  lemma CloseKeepsCarries(s: Session)
    ensures forall t: Session, out, err :: CloseOutput(t, out, err).carries == t.carries
  {}

  // So there EventDone, once sent, stays the last event.
  lemma DoneIsLastWithoutCarry(history: bool, owes: bool, moves: seq<Move>, more: seq<Move>, out: nat)
    requires Uncarried(moves) && TerminalSent(Reach(NewSession(history, owes), moves), out)
    ensures LastIsDone(Reach(Reach(NewSession(history, owes), moves), more), out)
  {
    NewSessionInv(history, owes);
    ReachKeepsInv(NewSession(history, owes), moves);
    NothingCarried(NewSession(history, owes), moves);
    hide Reach, NewSession;
    DoneStaysLastIff(Reach(NewSession(history, owes), moves), out);
  }
}
