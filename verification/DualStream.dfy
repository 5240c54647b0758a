/** Two streaming workers and their controller, as the steps that any thread schedule interleaves. */
module DualStream {
  import opened Wrappers

  // -- The state -----------------------------------------------------------------------------

  /** A line read from a stream, as the event check sees it. */
  datatype Raw = Empty | Malformed | Sse(stop: bool)

  datatype WorkerPc =
    | NotStarted
    | Entering
    | AtBarrier
    | Opening
    | Registering
    | Reading
    | Publishing(raw: Raw)
    | Announcing
    | Holding
    | Raising
    | Flagging
    | ClosingResponse
    | ClosingConnection
    | Finished

  /** `connected` is local to the worker; the other fields but `pc` are shared with the controller. */
  datatype Slot = Slot(pc: WorkerPc, connected: bool, registered: bool, event: Raw, ready: bool, gate: bool)

  datatype ControllerPc =
    | Starting(k: nat)
    | CEntering
    | CAtBarrier
    | Observing
    | AwaitingEvent(k: nat)
    | ReleasingFirst
    | Polling
    | AwaitingSurvivor
    | ReleasingSurvivor
    | Joining(k: nat)
    | CheckingErrors
    | FinalPolling
    | FinalGate(k: nat, ok: bool)
    | FinalJoin(k: nat, ok: bool)
    | FinalClose(ok: bool)
    | Building
    | Returned
    | Failed

  /** What an outside observer sees; `Closed` is the closing of either half of a slot's connection. */
  datatype Event =
    | BarrierMet
    | Opened(slot: nat)
    | Published(slot: nat)
    | Released(slot: nat)
    | IdlePollEnded
    | Closed(slot: nat)

  datatype Flags = Flags(
    bothFirstEvents: bool, bothProcessing: bool, cancelledIdle: bool, survivorActive: bool, bothIdle: bool)

  /** A barrier of three parties that breaks when one of them times out. */
  datatype Barrier = Barrier(arrived: nat, met: bool, broken: bool)

  datatype State = State(
    first: nat, slots: seq<Slot>, pc: ControllerPc, barrier: Barrier, errors: nat, flags: Flags, log: seq<Event>)
  {
    function Survivor(): nat requires first < 2 { 1 - first }
  }

  const PARTIES := 3

  function Init(first: nat): State
    requires first < 2
  {
    var slot := Slot(NotStarted, false, false, Empty, false, false);
    State(first, [slot, slot], Starting(0), Barrier(0, false, false), 0, Flags(false, false, false, false, false), [])
  }

  // -- A worker's steps ----------------------------------------------------------------------

  /** `Fault` is a timeout or an exception of the call the worker is in. */
  datatype WorkerMove = Go | Line(raw: Raw) | Fault

  /** What one step does to the worker's slot, to the barrier, to the error list and to the log. */
  datatype Effect = Effect(slot: Slot, barrier: Barrier, errors: nat, events: seq<Event>)

  function Arrive(b: Barrier): Barrier {
    Barrier(b.arrived + 1, b.met || b.arrived + 1 == PARTIES, b.broken)
  }

  function Arrival(b: Barrier): seq<Event> {
    if b.arrived + 1 == PARTIES then [BarrierMet] else []
  }

  function WorkerEffect(w: Slot, i: nat, b: Barrier, move: WorkerMove): Option<Effect> {
    match w.pc
    case NotStarted => None
    case Entering =>
      if b.broken then Some(Effect(w.(pc := Raising), b, 0, []))
      else Some(Effect(w.(pc := AtBarrier), Arrive(b), 0, Arrival(b)))
    case AtBarrier =>
      if b.met then Some(Effect(w.(pc := Opening), b, 0, []))
      else if b.broken then Some(Effect(w.(pc := Raising), b, 0, []))
      else if move.Fault? then Some(Effect(w.(pc := Raising), b.(broken := true), 0, []))
      else None
    case Opening =>
      if move.Fault? then Some(Effect(w.(pc := Raising), b, 0, [Opened(i), Closed(i)]))
      else Some(Effect(w.(pc := Registering, connected := true), b, 0, [Opened(i)]))
    case Registering => Some(Effect(w.(pc := Reading, registered := true), b, 0, []))
    case Reading =>
      if move.Line? && move.raw.Sse? then Some(Effect(w.(pc := Publishing(move.raw)), b, 0, []))
      else if move.Go? then None
      else Some(Effect(w.(pc := Raising), b, 0, []))
    case Publishing(raw) => Some(Effect(w.(pc := Announcing, event := raw), b, 0, [Published(i)]))
    case Announcing => Some(Effect(w.(pc := Holding, ready := true), b, 0, []))
    case Holding =>
      if move.Fault? then Some(Effect(w.(pc := Raising), b, 0, []))
      else if w.gate then Some(Effect(w.(pc := ClosingResponse), b, 0, []))
      else None
    case Raising => Some(Effect(w.(pc := Flagging), b, 1, []))
    case Flagging =>
      Some(Effect(w.(pc := if w.connected then ClosingResponse else Finished, ready := true), b, 0, []))
    case ClosingResponse =>
      Some(Effect(w.(pc := if move.Fault? then Finished else ClosingConnection), b, 0, [Closed(i)]))
    case ClosingConnection => Some(Effect(w.(pc := Finished), b, 0, [Closed(i)]))
    case Finished => None
  }

  function Applied(s: State, i: nat, e: Effect): State
    requires i < |s.slots|
  {
    s.(slots := s.slots[i := e.slot], barrier := e.barrier, errors := s.errors + e.errors,
      log := if e.events == [] then s.log else s.log + e.events)
  }

  function WorkerStep(s: State, i: nat, move: WorkerMove): Option<State>
    requires i < |s.slots|
  {
    var e := WorkerEffect(s.slots[i], i, s.barrier, move);
    if e.Some? then Some(Applied(s, i, e.value)) else None
  }

  // -- The controller's steps ----------------------------------------------------------------

  /** `Slots` is a poll of the server's slot list, `TimeUp` the end of a polling loop's time. */
  datatype ControllerMove = Proceed | Slots(idle0: bool, idle1: bool) | TimeUp | Error

  function Idle(move: ControllerMove, slot: nat): bool
    requires move.Slots?
  {
    if slot == 0 then move.idle0 else move.idle1
  }

  function Started(s: State, i: nat): State
    requires i < |s.slots|
  {
    s.(slots := s.slots[i := s.slots[i].(pc := Entering)])
  }

  function Log(s: State, e: Event): State {
    s.(log := s.log + [e])
  }

  function Abort(s: State): State {
    s.(pc := FinalGate(0, false))
  }

  function OpenGate(s: State, i: nat): State
    requires i < |s.slots|
  {
    Log(s.(slots := s.slots[i := s.slots[i].(gate := true)]), Released(i))
  }

  function CloseIfRegistered(s: State, i: nat): State
    requires i < |s.slots|
  {
    if s.slots[i].registered then Log(s, Closed(i)) else s
  }

  function BothClosed(s: State): State
    requires |s.slots| == 2
  {
    CloseIfRegistered(CloseIfRegistered(s, 0), 1)
  }

  function ControllerStep(s: State, move: ControllerMove): Option<State>
    requires |s.slots| == 2 && s.first < 2
  {
    var survivor := s.Survivor();
    match s.pc
    case Starting(k) =>
      if move.Error? then Some(Abort(s))
      else if k == 0 then Some(Started(s, s.first).(pc := Starting(1)))
      else Some(Started(s, survivor).(pc := CEntering))
    case CEntering =>
      if s.barrier.broken then Some(Abort(s))
      else Some(s.(pc := CAtBarrier, barrier := Arrive(s.barrier), log := s.log + Arrival(s.barrier)))
    case CAtBarrier =>
      if s.barrier.met then Some(s.(pc := Observing))
      else if s.barrier.broken then Some(Abort(s))
      else if move.Error? then Some(Abort(s.(barrier := s.barrier.(broken := true))))
      else None
    case Observing =>
      if move.Slots? then
        if !move.idle0 && !move.idle1 then
          Some(s.(pc := AwaitingEvent(0), flags := s.flags.(bothProcessing := true)))
        else if s.slots[0].ready && s.slots[1].ready then Some(s.(pc := AwaitingEvent(0)))
        else Some(s)
      else if move.TimeUp? then Some(s.(pc := AwaitingEvent(0)))
      else if move.Error? then Some(Abort(s))
      else None
    case AwaitingEvent(k) =>
      if move.Error? then Some(Abort(s))
      else if k == 0 then if s.slots[0].ready then Some(s.(pc := AwaitingEvent(1))) else None
      else if s.slots[1].ready then Some(s.(pc := ReleasingFirst, flags := s.flags.(bothFirstEvents := true)))
      else None
    case ReleasingFirst => Some(OpenGate(s, s.first).(pc := Polling))
    case Polling =>
      if move.Slots? then
        if Idle(move, s.first) then
          Some(Log(s, IdlePollEnded).(
               pc := AwaitingSurvivor,
               flags := s.flags.(cancelledIdle := true, survivorActive := !Idle(move, survivor))))
        else Some(s)
      else if move.TimeUp? then Some(Log(s, IdlePollEnded).(pc := AwaitingSurvivor))
      else if move.Error? then Some(Abort(s))
      else None
    case AwaitingSurvivor =>
      if move.Error? then Some(Abort(s))
      else if s.slots[survivor].ready then Some(s.(pc := ReleasingSurvivor))
      else None
    case ReleasingSurvivor => Some(OpenGate(s, survivor).(pc := Joining(0)))
    case Joining(k) =>
      if move.Error? then Some(Abort(s))
      else if k == 0 then if s.slots[0].pc.Finished? then Some(s.(pc := Joining(1))) else None
      else if s.slots[1].pc.Finished? then Some(s.(pc := CheckingErrors))
      else None
    case CheckingErrors => Some(if s.errors > 0 then Abort(s) else s.(pc := FinalPolling))
    case FinalPolling =>
      if move.Slots? then
        if move.idle0 && move.idle1 then Some(s.(pc := FinalGate(0, true), flags := s.flags.(bothIdle := true)))
        else Some(s)
      else if move.TimeUp? then Some(s.(pc := FinalGate(0, true)))
      else if move.Error? then Some(Abort(s))
      else None
    case FinalGate(k, ok) =>
      if k == 0 then Some(OpenGate(s, 0).(pc := FinalGate(1, ok)))
      else Some(OpenGate(s, 1).(pc := FinalJoin(0, ok)))
    case FinalJoin(k, ok) =>
      if k == 0 then Some(s.(pc := if s.slots[0].pc.NotStarted? then Failed else FinalJoin(1, ok)))
      else Some(s.(pc := if s.slots[1].pc.NotStarted? then Failed else FinalClose(ok)))
    case FinalClose(ok) =>
      if move.Error? then Some(s.(pc := Failed))
      else Some(BothClosed(s).(pc := if ok then Building else Failed))
    case Building =>
      Some(s.(pc := if s.slots[0].event.Sse? && s.slots[1].event.Sse? then Returned else Failed))
    case Returned => None
    case Failed => None
  }

  datatype Action = Worker(slot: nat, move: WorkerMove) | Controller(cmove: ControllerMove)

  function Step(s: State, a: Action): Option<State>
    requires |s.slots| == 2 && s.first < 2
  {
    match a
    case Worker(i, move) => if i < 2 then WorkerStep(s, i, move) else None
    case Controller(move) => ControllerStep(s, move)
  }

  ghost predicate Next(s: State, t: State)
    requires |s.slots| == 2 && s.first < 2
  {
    exists a :: Step(s, a) == Some(t)
  }

  /** The states one thread schedule passes through, from the first to the last. */
  ghost predicate IsRun(first: nat, states: seq<State>) {
    && first < 2
    && states != [] && states[0] == Init(first)
    && (forall n :: 0 <= n < |states| ==> |states[n].slots| == 2 && states[n].first == first)
    && (forall n :: 0 < n < |states| ==> Next(states[n - 1], states[n]))
  }

  ghost predicate Reachable(first: nat, s: State) {
    exists states :: IsRun(first, states) && states[|states| - 1] == s
  }

  // -- What a log promises -------------------------------------------------------------------

  ghost predicate BothPublished(log: seq<Event>) {
    Published(0) in log && Published(1) in log
  }

  /** What must precede an event of an undisturbed run. */
  ghost predicate Due(before: seq<Event>, e: Event, survivor: nat) {
    match e
    case Opened(_) => BarrierMet in before
    case Closed(i) => BothPublished(before) && (i == survivor ==> IdlePollEnded in before)
    case Released(i) => BothPublished(before) && (i == survivor ==> IdlePollEnded in before)
    case _ => true
  }

  ghost predicate Ordered(log: seq<Event>, survivor: nat) {
    forall j :: 0 <= j < |log| ==> Due(log[..j], log[j], survivor)
  }

  lemma OrderedExtends(log: seq<Event>, e: Event, survivor: nat)
    requires Ordered(log, survivor) && Due(log, e, survivor)
    ensures Ordered(log + [e], survivor)
  {
    var longer := log + [e];
    forall j | 0 <= j < |longer|
      ensures Due(longer[..j], longer[j], survivor)
    {
      assert longer[..j] == if j < |log| then log[..j] else log;
    }
  }

  // -- What every reachable state keeps ------------------------------------------------------

  ghost predicate Aborting(pc: ControllerPc) {
    match pc
    case FinalGate(_, ok) => !ok
    case FinalJoin(_, ok) => !ok
    case FinalClose(ok) => !ok
    case Failed => true
    case _ => false
  }

  /** The controller is bound to raise. */
  ghost predicate Troubled(s: State)
    requires |s.slots| == 2
  {
    s.errors > 0 || Aborting(s.pc) || s.slots[0].pc.Raising? || s.slots[1].pc.Raising?
  }

  predicate PastReady(pc: ControllerPc) {
    match pc
    case Starting(_) => false
    case CEntering => false
    case CAtBarrier => false
    case Observing => false
    case AwaitingEvent(_) => false
    case _ => true
  }

  predicate PastFirstRelease(pc: ControllerPc) {
    PastReady(pc) && !pc.ReleasingFirst?
  }

  predicate PastPoll(pc: ControllerPc) {
    PastFirstRelease(pc) && !pc.Polling?
  }

  predicate PastSurvivorRelease(pc: ControllerPc) {
    PastPoll(pc) && !pc.AwaitingSurvivor? && !pc.ReleasingSurvivor?
  }

  predicate PastJoins(pc: ControllerPc) {
    PastSurvivorRelease(pc) && !pc.Joining?
  }

  predicate PastErrorCheck(pc: ControllerPc) {
    PastJoins(pc) && !pc.CheckingErrors?
  }

  predicate Leaving(pc: WorkerPc) {
    pc.ClosingResponse? || pc.ClosingConnection? || pc.Finished?
  }

  predicate HasPublished(pc: WorkerPc) {
    pc.Announcing? || pc.Holding? || Leaving(pc)
  }

  predicate Streaming(pc: WorkerPc) {
    pc.Opening? || pc.Registering? || pc.Reading? || HasPublished(pc) || pc.Publishing?
  }

  /** One slot of an undisturbed run, given what the log says of it. */
  predicate SlotGood(w: Slot, met: bool, published: bool, closed: bool) {
    && (Streaming(w.pc) ==> met)
    && !w.pc.Flagging? && !w.pc.Raising?
    && (w.pc.Publishing? ==> w.pc.raw.Sse?)
    && (HasPublished(w.pc) ==> published)
    && (w.ready ==> published)
    && (published ==> w.event.Sse?)
    && (Leaving(w.pc) ==> w.gate)
    && (w.pc.ClosingConnection? || w.pc.Finished? ==> closed)
  }

  ghost predicate SlotInv(w: Slot, i: nat, log: seq<Event>) {
    SlotGood(w, BarrierMet in log, Published(i) in log, Closed(i) in log)
  }

  /** The controller of an undisturbed run. */
  ghost predicate ControllerInv(s: State)
    requires |s.slots| == 2 && s.first < 2
  {
    && (s.barrier.met ==> BarrierMet in s.log)
    && (s.pc == AwaitingEvent(1) ==> s.slots[0].ready)
    && (PastReady(s.pc) ==> s.slots[0].ready && s.slots[1].ready && s.flags.bothFirstEvents)
    && (s.slots[s.first].gate ==> BothPublished(s.log))
    && (s.slots[s.Survivor()].gate ==> BothPublished(s.log) && IdlePollEnded in s.log)
    && (PastPoll(s.pc) ==> IdlePollEnded in s.log)
  }

  function PcIndex(pc: ControllerPc): nat {
    match pc
    case Starting(k) => k
    case AwaitingEvent(k) => k
    case Joining(k) => k
    case FinalGate(k, _) => k
    case FinalJoin(k, _) => k
    case _ => 0
  }

  /** Starting, joining and the error check, which go as intended in every run that is not aborted. */
  ghost predicate JoinInv(s: State)
    requires |s.slots| == 2 && s.first < 2
  {
    !Aborting(s.pc) ==>
      && (s.pc.Starting? ==> PcIndex(s.pc) < 2 && s.slots[s.Survivor()].pc.NotStarted?)
      && (s.pc == Starting(0) ==> s.slots[s.first].pc.NotStarted?)
      && (s.pc.AwaitingEvent? || s.pc.Joining? || s.pc.FinalGate? || s.pc.FinalJoin? ==> PcIndex(s.pc) < 2)
      && (s.pc == Joining(1) ==> s.slots[0].pc.Finished?)
      && (PastJoins(s.pc) ==> s.slots[0].pc.Finished? && s.slots[1].pc.Finished?)
      && (PastErrorCheck(s.pc) ==> s.errors == 0)
  }

  ghost predicate Undisturbed(s: State)
    requires |s.slots| == 2 && s.first < 2
  {
    && SlotInv(s.slots[0], 0, s.log) && SlotInv(s.slots[1], 1, s.log)
    && ControllerInv(s)
    && Ordered(s.log, s.Survivor())
  }

  ghost predicate Inv(s: State) {
    && |s.slots| == 2 && s.first < 2
    && JoinInv(s)
    && (!Troubled(s) ==> Undisturbed(s))
  }

  // -- A worker's step -----------------------------------------------------------------------

  /** The effect of a trouble-free step: a good slot stays good, and its event, if any, is due. */
  predicate GoodEffect(w: Slot, i: nat, e: Effect, met: bool, published: bool, closed: bool) {
    var event := if e.events == [] then IdlePollEnded else e.events[0];
    && e.errors == 0 && |e.events| <= 1
    && e.slot.gate == w.gate && (w.ready ==> e.slot.ready) && !w.pc.Finished?
    && SlotGood(e.slot, met || event == BarrierMet, published || event == Published(i), closed || event == Closed(i))
    && (e.barrier.met ==> met || event == BarrierMet)
    && (event.Opened? ==> met)
    && (event.Closed? ==> event == Closed(i) && w.gate)
    && (event.Published? ==> event == Published(i))
    && !event.Released?
  }

  predicate Gathering(pc: WorkerPc) {
    pc.NotStarted? || pc.Entering? || pc.AtBarrier?
  }

  lemma GatheringEffectGood(w: Slot, i: nat, b: Barrier, move: WorkerMove, met: bool, published: bool, closed: bool)
    requires WorkerEffect(w, i, b, move).Some?
    requires SlotGood(w, met, published, closed) && (b.met ==> met)
    requires !WorkerEffect(w, i, b, move).value.slot.pc.Raising?
    requires Gathering(w.pc)
    ensures GoodEffect(w, i, WorkerEffect(w, i, b, move).value, met, published, closed)
  {
  }

  lemma OpeningEffectGood(w: Slot, i: nat, b: Barrier, move: WorkerMove, met: bool, published: bool, closed: bool)
    requires WorkerEffect(w, i, b, move).Some?
    requires SlotGood(w, met, published, closed) && (b.met ==> met)
    requires !WorkerEffect(w, i, b, move).value.slot.pc.Raising?
    requires !HasPublished(w.pc) && !w.pc.Publishing? && !Gathering(w.pc)
    ensures GoodEffect(w, i, WorkerEffect(w, i, b, move).value, met, published, closed)
  {
  }

  lemma LateEffectGood(w: Slot, i: nat, b: Barrier, move: WorkerMove, met: bool, published: bool, closed: bool)
    requires WorkerEffect(w, i, b, move).Some?
    requires SlotGood(w, met, published, closed) && (b.met ==> met)
    requires !WorkerEffect(w, i, b, move).value.slot.pc.Raising?
    requires HasPublished(w.pc) || w.pc.Publishing?
    ensures GoodEffect(w, i, WorkerEffect(w, i, b, move).value, met, published, closed)
  {
  }

  /** What a log of at most one more event says. */
  lemma LogGrows(log: seq<Event>, events: seq<Event>)
    requires |events| <= 1
    ensures forall x :: x in log + events <==> x in log || (events != [] && x == events[0])
  {
  }

  lemma AppliedController(s: State, i: nat, e: Effect)
    requires |s.slots| == 2 && s.first < 2 && i < 2 && ControllerInv(s)
    requires GoodEffect(s.slots[i], i, e, BarrierMet in s.log, Published(i) in s.log, Closed(i) in s.log)
    ensures ControllerInv(Applied(s, i, e))
  {
    hide SlotInv, Ordered, Streaming, HasPublished, Leaving;
    LogGrows(s.log, e.events);
  }

  lemma AppliedSlots(s: State, i: nat, e: Effect)
    requires |s.slots| == 2 && i < 2 && SlotInv(s.slots[0], 0, s.log) && SlotInv(s.slots[1], 1, s.log)
    requires GoodEffect(s.slots[i], i, e, BarrierMet in s.log, Published(i) in s.log, Closed(i) in s.log)
    ensures SlotInv(Applied(s, i, e).slots[0], 0, Applied(s, i, e).log)
    ensures SlotInv(Applied(s, i, e).slots[1], 1, Applied(s, i, e).log)
  {
    LogGrows(s.log, e.events);
  }

  lemma AppliedOrdered(s: State, i: nat, e: Effect)
    requires |s.slots| == 2 && s.first < 2 && i < 2 && Ordered(s.log, s.Survivor()) && ControllerInv(s)
    requires GoodEffect(s.slots[i], i, e, BarrierMet in s.log, Published(i) in s.log, Closed(i) in s.log)
    ensures Ordered(s.log + e.events, s.Survivor())
  {
    if e.events == [] {
      assert s.log + e.events == s.log;
    } else {
      OrderedExtends(s.log, e.events[0], s.Survivor());
      assert e.events == [e.events[0]];
    }
  }

  lemma WorkerEffectGood(w: Slot, i: nat, b: Barrier, move: WorkerMove, met: bool, published: bool, closed: bool)
    requires WorkerEffect(w, i, b, move).Some?
    requires SlotGood(w, met, published, closed) && (b.met ==> met)
    requires !WorkerEffect(w, i, b, move).value.slot.pc.Raising?
    ensures GoodEffect(w, i, WorkerEffect(w, i, b, move).value, met, published, closed)
  {
    if HasPublished(w.pc) || w.pc.Publishing? {
      LateEffectGood(w, i, b, move, met, published, closed);
    } else if Gathering(w.pc) {
      GatheringEffectGood(w, i, b, move, met, published, closed);
    } else {
      OpeningEffectGood(w, i, b, move, met, published, closed);
    }
  }

  /** A worker moves only after it was started, never after it has finished, and its errors stay on the list. */
  lemma WorkerFrame(s: State, i: nat, move: WorkerMove)
    requires |s.slots| == 2 && s.first < 2 && i < 2 && WorkerStep(s, i, move).Some?
    ensures !s.slots[i].pc.NotStarted? && !s.slots[i].pc.Finished?
    ensures var t := WorkerStep(s, i, move).value;
            && |t.slots| == 2 && t.first == s.first && t.pc == s.pc
            && t.slots[1 - i] == s.slots[1 - i] && !t.slots[i].pc.NotStarted?
            && t.errors == s.errors + (if s.slots[i].pc.Raising? then 1 else 0)
  {
    hide Arrive, Arrival;
  }

  lemma WorkerKeepsUndisturbed(s: State, i: nat, move: WorkerMove)
    requires |s.slots| == 2 && s.first < 2 && i < 2 && WorkerStep(s, i, move).Some?
    requires Undisturbed(s) && !WorkerStep(s, i, move).value.slots[i].pc.Raising?
    ensures Undisturbed(WorkerStep(s, i, move).value)
  {
    var w := s.slots[i];
    WorkerEffectGood(w, i, s.barrier, move, BarrierMet in s.log, Published(i) in s.log, Closed(i) in s.log);
    var e := WorkerEffect(w, i, s.barrier, move).value;
    AppliedSlots(s, i, e);
    AppliedController(s, i, e);
    AppliedOrdered(s, i, e);
  }

  lemma WorkerKeepsInv(s: State, i: nat, move: WorkerMove)
    requires Inv(s) && i < 2 && WorkerStep(s, i, move).Some?
    ensures Inv(WorkerStep(s, i, move).value)
  {
    WorkerFrame(s, i, move);
    if !Troubled(WorkerStep(s, i, move).value) {
      WorkerKeepsUndisturbed(s, i, move);
    }
  }

  // -- The controller's step -----------------------------------------------------------------

  /** The controller records no error and moves no worker that it does not start. */
  ghost predicate Framed(s: State, t: State)
    requires |s.slots| == 2
  {
    && |t.slots| == 2 && t.first == s.first && t.errors == s.errors
    && (!s.pc.Starting? ==> t.slots[0].pc == s.slots[0].pc && t.slots[1].pc == s.slots[1].pc)
  }

  lemma EarlyFrame(s: State, move: ControllerMove)
    requires |s.slots| == 2 && s.first < 2 && ControllerStep(s, move).Some? && !PastReady(s.pc)
    ensures Framed(s, ControllerStep(s, move).value)
  {
  }

  lemma MiddleFrame(s: State, move: ControllerMove)
    requires |s.slots| == 2 && s.first < 2 && ControllerStep(s, move).Some? && PastReady(s.pc) && !PastErrorCheck(s.pc)
    ensures Framed(s, ControllerStep(s, move).value)
  {
  }

  lemma LateFrame(s: State, move: ControllerMove)
    requires |s.slots| == 2 && s.first < 2 && ControllerStep(s, move).Some? && PastErrorCheck(s.pc)
    ensures Framed(s, ControllerStep(s, move).value)
  {
  }

  lemma ControllerFrame(s: State, move: ControllerMove)
    requires |s.slots| == 2 && s.first < 2 && ControllerStep(s, move).Some?
    ensures Framed(s, ControllerStep(s, move).value)
  {
    if !PastReady(s.pc) {
      EarlyFrame(s, move);
    } else if PastErrorCheck(s.pc) {
      LateFrame(s, move);
    } else {
      MiddleFrame(s, move);
    }
  }

  lemma EarlyJoinKept(s: State, move: ControllerMove)
    requires |s.slots| == 2 && s.first < 2 && JoinInv(s) && ControllerStep(s, move).Some?
    requires !PastSurvivorRelease(s.pc)
    ensures JoinInv(ControllerStep(s, move).value)
  {
    assert !PastJoins(ControllerStep(s, move).value.pc) || Aborting(ControllerStep(s, move).value.pc);
  }

  lemma LateJoinKept(s: State, move: ControllerMove)
    requires |s.slots| == 2 && s.first < 2 && JoinInv(s) && ControllerStep(s, move).Some?
    requires PastSurvivorRelease(s.pc)
    ensures JoinInv(ControllerStep(s, move).value)
  {
    ControllerFrame(s, move);
  }

  lemma JoinKept(s: State, move: ControllerMove)
    requires |s.slots| == 2 && s.first < 2 && JoinInv(s) && ControllerStep(s, move).Some?
    ensures JoinInv(ControllerStep(s, move).value)
  {
    if PastSurvivorRelease(s.pc) {
      LateJoinKept(s, move);
    } else {
      EarlyJoinKept(s, move);
    }
  }

  lemma AbortingStays(s: State, move: ControllerMove)
    requires |s.slots| == 2 && s.first < 2 && Aborting(s.pc) && ControllerStep(s, move).Some?
    ensures Aborting(ControllerStep(s, move).value.pc)
  {
  }

  lemma StartingKeepsRaising(s: State, move: ControllerMove, i: nat)
    requires |s.slots| == 2 && s.first < 2 && JoinInv(s) && ControllerStep(s, move).Some?
    requires s.pc.Starting? && i < 2 && s.slots[i].pc.Raising?
    ensures ControllerStep(s, move).value.slots[i].pc.Raising?
  {
  }

  lemma TroubleStays(s: State, move: ControllerMove)
    requires |s.slots| == 2 && s.first < 2 && JoinInv(s) && ControllerStep(s, move).Some? && Troubled(s)
    ensures |ControllerStep(s, move).value.slots| == 2 && Troubled(ControllerStep(s, move).value)
  {
    ControllerFrame(s, move);
    if Aborting(s.pc) {
      AbortingStays(s, move);
    } else if s.pc.Starting? {
      if s.slots[0].pc.Raising? {
        StartingKeepsRaising(s, move, 0);
      } else if s.slots[1].pc.Raising? {
        StartingKeepsRaising(s, move, 1);
      }
    }
  }

  lemma SlotLogged(w: Slot, i: nat, log: seq<Event>, e: Event)
    requires SlotInv(w, i, log) && !e.Published?
    ensures SlotInv(w, i, log + [e])
  {
    assert forall x :: x in log + [e] <==> x in log || x == e;
  }

  lemma ControllerLogged(s: State, e: Event)
    requires |s.slots| == 2 && s.first < 2 && ControllerInv(s)
    ensures ControllerInv(Log(s, e))
  {
    assert forall x :: x in s.log ==> x in Log(s, e).log;
  }

  /** Logging an event that is due keeps the slots as they are. */
  lemma LoggedKeeps(s: State, e: Event)
    requires |s.slots| == 2 && s.first < 2 && Undisturbed(s)
    requires !e.Published? && Due(s.log, e, s.Survivor())
    ensures Undisturbed(Log(s, e))
  {
    SlotLogged(s.slots[0], 0, s.log, e);
    SlotLogged(s.slots[1], 1, s.log, e);
    ControllerLogged(s, e);
    OrderedExtends(s.log, e, s.Survivor());
  }

  lemma OpenGateKeeps(s: State, i: nat)
    requires |s.slots| == 2 && s.first < 2 && i < 2 && Undisturbed(s)
    requires Due(s.log, Released(i), s.Survivor())
    ensures Undisturbed(OpenGate(s, i))
  {
    var t := s.(slots := s.slots[i := s.slots[i].(gate := true)]);
    assert Undisturbed(t);
    LoggedKeeps(t, Released(i));
  }

  lemma BarrierKeeps(s: State, b: Barrier)
    requires |s.slots| == 2 && s.first < 2 && Undisturbed(s) && (b.met ==> BarrierMet in s.log)
    ensures Undisturbed(s.(barrier := b))
  {
  }

  lemma ReachBarrierKeeps(s: State)
    requires |s.slots| == 2 && s.first < 2 && Undisturbed(s) && s.pc.CEntering?
    ensures Undisturbed(s.(pc := CAtBarrier))
  {
  }

  lemma EnterKeeps(s: State, move: ControllerMove)
    requires |s.slots| == 2 && s.first < 2 && Undisturbed(s) && s.pc.CEntering? && !s.barrier.broken
    ensures Undisturbed(ControllerStep(s, move).value)
  {
    var t := s.(pc := CAtBarrier);
    ReachBarrierKeeps(s);
    if Arrival(s.barrier) == [] {
      BarrierKeeps(t, Arrive(s.barrier));
      assert s.log + Arrival(s.barrier) == s.log;
    } else {
      LoggedKeeps(t, BarrierMet);
      BarrierKeeps(Log(t, BarrierMet), Arrive(s.barrier));
    }
  }

  lemma StartKeeps(s: State, move: ControllerMove)
    requires Inv(s) && ControllerStep(s, move).Some?
    requires !Troubled(ControllerStep(s, move).value) && !Troubled(s)
    requires s.pc.Starting? || s.pc.CAtBarrier?
    ensures Undisturbed(ControllerStep(s, move).value)
  {
    hide Ordered, Arrive, Arrival;
  }

  lemma ObserveKeeps(s: State, move: ControllerMove)
    requires Inv(s) && ControllerStep(s, move).Some?
    requires !Troubled(ControllerStep(s, move).value) && !Troubled(s)
    requires s.pc.Observing? || s.pc.AwaitingEvent?
    ensures Undisturbed(ControllerStep(s, move).value)
  {
    hide Ordered, SlotInv, Arrive, Arrival;
  }

  lemma ReleaseFirstKeeps(s: State, move: ControllerMove)
    requires |s.slots| == 2 && s.first < 2 && Undisturbed(s) && s.pc.ReleasingFirst?
    ensures Undisturbed(ControllerStep(s, move).value)
  {
    OpenGateKeeps(s, s.first);
  }

  lemma PollKeeps(s: State, move: ControllerMove)
    requires |s.slots| == 2 && s.first < 2 && Undisturbed(s) && s.pc.Polling? && ControllerStep(s, move).Some?
    requires !Aborting(ControllerStep(s, move).value.pc)
    ensures Undisturbed(ControllerStep(s, move).value)
  {
    LoggedKeeps(s, IdlePollEnded);
  }

  lemma ReleaseSurvivorKeeps(s: State, move: ControllerMove)
    requires |s.slots| == 2 && s.first < 2 && Undisturbed(s) && ControllerStep(s, move).Some?
    requires s.pc.AwaitingSurvivor? || s.pc.ReleasingSurvivor?
    requires !Aborting(ControllerStep(s, move).value.pc)
    ensures Undisturbed(ControllerStep(s, move).value)
  {
    if s.pc.ReleasingSurvivor? {
      OpenGateKeeps(s, s.Survivor());
    }
  }

  lemma CloseKeeps(s: State, i: nat)
    requires |s.slots| == 2 && s.first < 2 && i < 2 && Undisturbed(s) && PastPoll(s.pc)
    ensures Undisturbed(CloseIfRegistered(s, i))
  {
    if s.slots[i].registered {
      LoggedKeeps(s, Closed(i));
    }
  }

  /** Moving on late in the protocol changes nothing the controller's invariant speaks of. */
  lemma LateKeeps(s: State, pc: ControllerPc, flags: Flags)
    requires |s.slots| == 2 && s.first < 2 && Undisturbed(s) && PastSurvivorRelease(s.pc) && PastSurvivorRelease(pc)
    requires flags.bothFirstEvents == s.flags.bothFirstEvents
    ensures Undisturbed(s.(pc := pc, flags := flags))
  {
  }

  predicate Checking(pc: ControllerPc) {
    pc.Joining? || pc.CheckingErrors? || pc.FinalPolling? || pc.FinalJoin? || pc.Building?
  }

  lemma CheckingMoves(s: State, move: ControllerMove)
    requires |s.slots| == 2 && s.first < 2 && Checking(s.pc) && ControllerStep(s, move).Some?
    requires !Aborting(ControllerStep(s, move).value.pc)
    ensures var t := ControllerStep(s, move).value;
            && t == s.(pc := t.pc, flags := t.flags) && PastSurvivorRelease(t.pc)
            && t.flags.bothFirstEvents == s.flags.bothFirstEvents
  {
  }

  lemma CheckKeeps(s: State, move: ControllerMove)
    requires |s.slots| == 2 && s.first < 2 && Undisturbed(s) && Checking(s.pc) && ControllerStep(s, move).Some?
    requires !Aborting(ControllerStep(s, move).value.pc)
    ensures Undisturbed(ControllerStep(s, move).value)
  {
    CheckingMoves(s, move);
    var t := ControllerStep(s, move).value;
    LateKeeps(s, t.pc, t.flags);
  }

  lemma FinalGateKeeps(s: State, move: ControllerMove)
    requires |s.slots| == 2 && s.first < 2 && Undisturbed(s) && s.pc.FinalGate? && s.pc.k < 2
    ensures Undisturbed(ControllerStep(s, move).value)
  {
    OpenGateKeeps(s, s.pc.k);
    LateKeeps(OpenGate(s, s.pc.k), ControllerStep(s, move).value.pc, s.flags);
  }

  lemma BothClosedKeeps(s: State)
    requires |s.slots| == 2 && s.first < 2 && Undisturbed(s) && PastPoll(s.pc)
    ensures |BothClosed(s).slots| == 2 && BothClosed(s).first == s.first && BothClosed(s).pc == s.pc
    ensures BothClosed(s).flags == s.flags && Undisturbed(BothClosed(s))
  {
    CloseKeeps(s, 0);
    CloseKeeps(CloseIfRegistered(s, 0), 1);
  }

  lemma FinalCloseKeeps(s: State, move: ControllerMove)
    requires |s.slots| == 2 && s.first < 2 && Undisturbed(s) && s.pc.FinalClose?
    requires !Aborting(ControllerStep(s, move).value.pc)
    ensures Undisturbed(ControllerStep(s, move).value)
  {
    BothClosedKeeps(s);
    LateKeeps(BothClosed(s), ControllerStep(s, move).value.pc, s.flags);
  }

  lemma ControllerKeepsUndisturbed(s: State, move: ControllerMove)
    requires Inv(s) && ControllerStep(s, move).Some?
    requires !Troubled(ControllerStep(s, move).value) && !Troubled(s)
    ensures Undisturbed(ControllerStep(s, move).value)
  {
    if s.pc.CEntering? {
      EnterKeeps(s, move);
    } else if s.pc.Observing? || s.pc.AwaitingEvent? {
      ObserveKeeps(s, move);
    } else if !PastReady(s.pc) {
      StartKeeps(s, move);
    } else if s.pc.ReleasingFirst? {
      ReleaseFirstKeeps(s, move);
    } else if s.pc.Polling? {
      PollKeeps(s, move);
    } else if !PastSurvivorRelease(s.pc) {
      ReleaseSurvivorKeeps(s, move);
    } else if s.pc.FinalGate? {
      FinalGateKeeps(s, move);
    } else if s.pc.FinalClose? {
      FinalCloseKeeps(s, move);
    } else {
      CheckKeeps(s, move);
    }
  }

  lemma ControllerKeepsInv(s: State, move: ControllerMove)
    requires Inv(s) && ControllerStep(s, move).Some?
    ensures Inv(ControllerStep(s, move).value)
  {
    ControllerFrame(s, move);
    JoinKept(s, move);
    if Troubled(s) {
      TroubleStays(s, move);
    } else if !Troubled(ControllerStep(s, move).value) {
      ControllerKeepsUndisturbed(s, move);
    }
  }

  // -- Whole runs ----------------------------------------------------------------------------

  lemma StepKeepsInv(s: State, a: Action)
    requires Inv(s) && Step(s, a).Some?
    ensures Inv(Step(s, a).value)
  {
    match a {
      case Worker(i, move) => WorkerKeepsInv(s, i, move);
      case Controller(move) => ControllerKeepsInv(s, move);
    }
  }

  lemma {:induction false} RunKeepsInv(first: nat, states: seq<State>, n: nat)
    requires IsRun(first, states) && n < |states|
    ensures Inv(states[n])
  {
    if n == 0 {
      assert Ordered([], 1 - first);
    } else {
      RunKeepsInv(first, states, n - 1);
      assert Next(states[n - 1], states[n]);
      var a :| Step(states[n - 1], a) == Some(states[n]);
      StepKeepsInv(states[n - 1], a);
    }
  }

  lemma StepKeepsShape(s: State, a: Action)
    requires |s.slots| == 2 && s.first < 2 && Step(s, a).Some?
    ensures |Step(s, a).value.slots| == 2 && Step(s, a).value.first == s.first
  {
    match a {
      case Worker(i, move) => WorkerFrame(s, i, move);
      case Controller(move) => ControllerFrame(s, move);
    }
  }

  lemma RunContinues(first: nat, states: seq<State>, a: Action)
    requires IsRun(first, states) && Step(states[|states| - 1], a).Some?
    ensures IsRun(first, states + [Step(states[|states| - 1], a).value])
  {
    var t := Step(states[|states| - 1], a).value;
    StepKeepsShape(states[|states| - 1], a);
    var longer := states + [t];
    forall n | 0 < n < |longer|
      ensures Next(longer[n - 1], longer[n])
    {
      assert n < |states| ==> longer[n - 1] == states[n - 1] && longer[n] == states[n];
    }
  }

  /** The record a normal return builds from the state. */
  datatype Report = Report(flags: Flags, nonterminal0: bool, observed0: bool, nonterminal1: bool, observed1: bool)

  function ReportOf(s: State): Report
    requires |s.slots| == 2 && s.slots[0].event.Sse? && s.slots[1].event.Sse?
  {
    Report(s.flags,
           !s.slots[0].event.stop, s.slots[0].event != Empty,
           !s.slots[1].event.stop, s.slots[1].event != Empty)
  }

  /** Under every schedule, fault and timeout: a run that returns has published both first events before any
      connection is closed, has ended the idle poll before the survivor's is, has opened no stream before the
      barrier was met, and has closed a half at least of each connection. */
  lemma ReturnedRunIsOrdered(first: nat, states: seq<State>)
    requires IsRun(first, states) && states[|states| - 1].pc.Returned?
    ensures var s := states[|states| - 1];
            && (forall j, i :: 0 <= j < |s.log| && s.log[j] == Closed(i) ==>
                  && Published(0) in s.log[..j] && Published(1) in s.log[..j]
                  && (i == 1 - first ==> IdlePollEnded in s.log[..j]))
            && (forall j, i :: 0 <= j < |s.log| && s.log[j] == Opened(i) ==> BarrierMet in s.log[..j])
            && Closed(0) in s.log && Closed(1) in s.log
            && s.errors == 0 && s.slots[0].pc.Finished? && s.slots[1].pc.Finished?
            && s.slots[0].event.Sse? && s.slots[1].event.Sse?
            && ReportOf(s).flags.bothFirstEvents && ReportOf(s).observed0 && ReportOf(s).observed1
  {
    hide Next;
    var s := states[|states| - 1];
    RunKeepsInv(first, states, |states| - 1);
    forall j | 0 <= j < |s.log|
      ensures Due(s.log[..j], s.log[j], 1 - first)
    {
    }
  }

  /** A run that returns makes this report. */
  ghost predicate Reported(first: nat, r: Report) {
    exists states: seq<State> ::
      && IsRun(first, states) && states[|states| - 1].pc.Returned?
      && states[|states| - 1].slots[0].event.Sse? && states[|states| - 1].slots[1].event.Sse?
      && r == ReportOf(states[|states| - 1])
  }

  /** Whatever the schedule, a report says that both first events came first and were observed. */
  lemma ReportsPublished(first: nat, r: Report)
    requires Reported(first, r)
    ensures r.flags.bothFirstEvents && r.observed0 && r.observed1
  {
    var states: seq<State> :| && IsRun(first, states) && states[|states| - 1].pc.Returned?
                  && states[|states| - 1].slots[0].event.Sse? && states[|states| - 1].slots[1].event.Sse?
                  && r == ReportOf(states[|states| - 1]);
    ReturnedRunIsOrdered(first, states);
  }

  /** Once the error check is passed, building the report cannot raise. */
  lemma ReportCannotRaise(first: nat, states: seq<State>, n: nat)
    requires IsRun(first, states) && n < |states| && states[n].pc.Building?
    ensures states[n].slots[0].event.Sse? && states[n].slots[1].event.Sse?
    ensures ControllerStep(states[n], Proceed) == Some(states[n].(pc := Returned))
  {
    RunKeepsInv(first, states, n);
  }

  // -- Two runs in full ----------------------------------------------------------------------

  lemma ReachableNext(first: nat, s: State, t: State)
    requires Reachable(first, s) && |s.slots| == 2 && s.first < 2 && Next(s, t)
    ensures Reachable(first, t) && |t.slots| == 2 && t.first == s.first
  {
    var a :| Step(s, a) == Some(t);
    StepKeepsShape(s, a);
    var states :| IsRun(first, states) && states[|states| - 1] == s;
    RunContinues(first, states, a);
    assert (states + [t])[|states + [t]| - 1] == t;
  }

  lemma WorkerMoves(first: nat, s: State, i: nat, move: WorkerMove) returns (t: State)
    requires Reachable(first, s) && |s.slots| == 2 && s.first == first < 2 && i < 2
    requires WorkerEffect(s.slots[i], i, s.barrier, move).Some?
    ensures Reachable(first, t)
    ensures var e := WorkerEffect(s.slots[i], i, s.barrier, move).value;
            && t == s.(slots := s.slots[i := e.slot], barrier := e.barrier, errors := s.errors + e.errors, log := t.log)
            && (e.events == [] ==> t.log == s.log)
  {
    t := Applied(s, i, WorkerEffect(s.slots[i], i, s.barrier, move).value);
    assert Step(s, Worker(i, move)) == Some(t);
    ReachableNext(first, s, t);
  }

  lemma ControllerMoves(first: nat, s: State, move: ControllerMove) returns (t: State)
    requires Reachable(first, s) && |s.slots| == 2 && s.first == first < 2 && ControllerStep(s, move).Some?
    ensures Reachable(first, t) && |t.slots| == 2 && t.first == first
    ensures t == ControllerStep(s, move).value
  {
    t := ControllerStep(s, move).value;
    assert Step(s, Controller(move)) == Some(t);
    ReachableNext(first, s, t);
  }

  lemma Starts(first: nat) returns (s: State)
    requires first < 2
    ensures Reachable(first, s)
    ensures var w := Slot(Entering, false, false, Empty, false, false);
            s == State(first, [w, w], CEntering, Barrier(0, false, false), 0,
                       Flags(false, false, false, false, false), [])
  {
    s := Init(first);
    assert IsRun(first, [s]);
    s := ControllerMoves(first, s, Proceed);
    s := ControllerMoves(first, s, Proceed);
  }

  /** Both workers and the controller pass the barrier. */
  lemma Launches(first: nat) returns (s: State)
    requires first < 2
    ensures Reachable(first, s)
    ensures var w := Slot(Opening, false, false, Empty, false, false);
            s == State(first, [w, w], Observing, Barrier(3, true, false), 0,
                       Flags(false, false, false, false, false), [BarrierMet])
  {
    s := Starts(first);
    s := WorkerMoves(first, s, 0, Go);
    s := WorkerMoves(first, s, 1, Go);
    s := ControllerMoves(first, s, Proceed);
    s := WorkerMoves(first, s, 0, Go);
    s := WorkerMoves(first, s, 1, Go);
    s := ControllerMoves(first, s, Proceed);
  }

  lemma Publishes(first: nat, s: State, i: nat, stop: bool) returns (t: State)
    requires Reachable(first, s) && |s.slots| == 2 && s.first == first < 2 && i < 2 && s.slots[i].pc == Opening
    ensures Reachable(first, t)
    ensures var w := s.slots[i].(
                       pc := Holding, connected := true, registered := true, event := Sse(stop), ready := true);
            t == s.(slots := s.slots[i := w], log := t.log)
  {
    t := WorkerMoves(first, s, i, Go);
    t := WorkerMoves(first, t, i, Go);
    t := WorkerMoves(first, t, i, Line(Sse(stop)));
    t := WorkerMoves(first, t, i, Go);
    t := WorkerMoves(first, t, i, Go);
  }

  lemma Leaves(first: nat, s: State, i: nat) returns (t: State)
    requires Reachable(first, s) && |s.slots| == 2 && s.first == first < 2 && i < 2 && s.slots[i].pc == Holding
    requires s.slots[i].gate
    ensures Reachable(first, t)
    ensures t == s.(slots := s.slots[i := s.slots[i].(pc := Finished)], log := t.log)
  {
    t := WorkerMoves(first, s, i, Go);
    t := WorkerMoves(first, t, i, Go);
    t := WorkerMoves(first, t, i, Go);
  }

  lemma ReleasesFirst(first: nat, s: State) returns (t: State)
    requires Reachable(first, s) && |s.slots| == 2 && s.first == first < 2 && s.pc == Observing && s.slots[0].ready
    requires s.slots[1].ready
    ensures Reachable(first, t)
    ensures t == s.(pc := Polling, slots := s.slots[first := s.slots[first].(gate := true)],
                    flags := s.flags.(bothFirstEvents := true), log := t.log)
  {
    t := ControllerMoves(first, s, TimeUp);
    t := ControllerMoves(first, t, Proceed);
    t := ControllerMoves(first, t, Proceed);
    t := ControllerMoves(first, t, Proceed);
  }

  lemma ReleasesSurvivor(first: nat, s: State) returns (t: State)
    requires Reachable(first, s) && |s.slots| == 2 && s.first == first < 2 && s.pc == Polling
    requires s.slots[1 - first].ready
    ensures Reachable(first, t)
    ensures t == s.(pc := Joining(0), slots := s.slots[1 - first := s.slots[1 - first].(gate := true)],
                    flags := s.flags.(cancelledIdle := true, survivorActive := true), log := t.log)
  {
    t := ControllerMoves(first, s, Slots(first == 0, first == 1));
    t := ControllerMoves(first, t, Proceed);
    t := ControllerMoves(first, t, Proceed);
  }

  lemma ChecksOut(first: nat, s: State) returns (t: State)
    requires Reachable(first, s) && |s.slots| == 2 && s.first == first < 2 && s.pc == Joining(0) && s.errors == 0
    requires s.slots[0].pc == Finished && s.slots[1].pc == Finished
    ensures Reachable(first, t)
    ensures t == s.(pc := FinalGate(0, true), flags := s.flags.(bothIdle := true))
  {
    t := ControllerMoves(first, s, Proceed);
    t := ControllerMoves(first, t, Proceed);
    t := ControllerMoves(first, t, Proceed);
    t := ControllerMoves(first, t, Slots(true, true));
  }

  lemma WindsUp(first: nat, s: State) returns (t: State)
    requires Reachable(first, s) && |s.slots| == 2 && s.first == first < 2 && s.pc == FinalGate(0, true)
    requires s.slots[0].pc == Finished && s.slots[1].pc == Finished
    requires s.slots[0].event.Sse? && s.slots[1].event.Sse?
    ensures Reachable(first, t) && t.pc == Returned && t.flags == s.flags && |t.slots| == 2
    ensures t.slots[0].event == s.slots[0].event && t.slots[1].event == s.slots[1].event
  {
    t := ControllerMoves(first, s, Proceed);
    t := ControllerMoves(first, t, Proceed);
    t := ControllerMoves(first, t, Proceed);
    t := ControllerMoves(first, t, Proceed);
    t := ControllerMoves(first, t, Proceed);
    t := ControllerMoves(first, t, Proceed);
  }

  /** For either order of disconnecting some run does return, with every flag it reports set but the sampled one,
      whatever the two first events were: the disconnect also follows an event that says its stream had already
      ended. */
  lemma SomeRunReturns(first: nat, stop0: bool, stop1: bool)
    requires first < 2
    ensures exists s: State ::
              && Reachable(first, s) && s.pc.Returned? && s.flags == Flags(true, false, true, true, true)
              && |s.slots| == 2 && s.slots[0].event == Sse(stop0) && s.slots[1].event == Sse(stop1)
  {
    var s := Launches(first);
    s := Publishes(first, s, 0, stop0);
    s := Publishes(first, s, 1, stop1);
    s := ReleasesFirst(first, s);
    s := Leaves(first, s, first);
    s := ReleasesSurvivor(first, s);
    s := Leaves(first, s, 1 - first);
    s := ChecksOut(first, s);
    s := WindsUp(first, s);
  }

  /** So there is a report for either order, with the given nonterminal flags. */
  lemma SomeReport(first: nat, stop0: bool, stop1: bool) returns (r: Report)
    requires first < 2
    ensures Reported(first, r) && r == Report(Flags(true, false, true, true, true), !stop0, true, !stop1, true)
  {
    SomeRunReturns(first, stop0, stop1);
    var s: State :|
      && Reachable(first, s) && s.pc.Returned? && s.flags == Flags(true, false, true, true, true)
      && |s.slots| == 2 && s.slots[0].event == Sse(stop0) && s.slots[1].event == Sse(stop1);
    var states :| IsRun(first, states) && states[|states| - 1] == s;
    r := ReportOf(s);
  }

  lemma FailsToOpen(first: nat, s: State, i: nat) returns (t: State)
    requires Reachable(first, s) && |s.slots| == 2 && s.first == first < 2 && i < 2 && s.slots[i].pc == Opening
    requires !s.slots[i].connected
    ensures Reachable(first, t)
    ensures t == s.(slots := s.slots[i := s.slots[i].(pc := Finished, ready := true)], errors := s.errors + 1,
                    log := s.log + [Opened(i), Closed(i)])
  {
    t := Applied(s, i, WorkerEffect(s.slots[i], i, s.barrier, Fault).value);
    assert Step(s, Worker(i, Fault)) == Some(t);
    ReachableNext(first, s, t);
    t := WorkerMoves(first, t, i, Go);
    t := WorkerMoves(first, t, i, Go);
  }

  /** The controller's own flag does not show what its name says: it is also set when both workers failed
      before publishing anything. The later error check is what a return rests on. */
  lemma FlagAloneShowsNothing(first: nat)
    requires first < 2
    ensures exists s: State :: Reachable(first, s) && s.flags.bothFirstEvents
                               && Published(0) !in s.log && Published(1) !in s.log && Closed(0) in s.log
  {
    var s := Launches(first);
    s := FailsToOpen(first, s, 0);
    s := FailsToOpen(first, s, 1);
    assert s.log == [BarrierMet, Opened(0), Closed(0), Opened(1), Closed(1)];
    s := ControllerMoves(first, s, TimeUp);
    s := ControllerMoves(first, s, Proceed);
    s := ControllerMoves(first, s, Proceed);
  }
}
