/** One stream that is cut off after its first event, and the thread that samples the slot meanwhile, as the steps that
    any schedule interleaves. */
module SingleStream {
  import opened Wrappers
  import opened Oracle
  import DualStream

  // -- The state -----------------------------------------------------------------------------

  /** What a validated slot list says of the slot: whether it is idle, if the view can be made. */
  type View = Option<bool>

  datatype SamplerPc =
    | Unstarted
    | Checking
    | Polling
    | Readying(view: View)
    | Viewing(view: View)
    | Pausing
    | Leaving
    | Gone

  /** `ok` is false once an exception is on its way out of the guarded part. */
  datatype ControllerPc =
    | Starting
    | AwaitingReady
    | GivingUp
    | Opening
    | Watching
    | Reading
    | ClosingResponse(ok: bool)
    | ClosingConnection(ok: bool)
    | StoppingSampler(ok: bool)
    | JoiningSampler(ok: bool)
    | IdlePolling
    | Returned
    | Failed

  /** What happens, in order; the first two are the sampler's. */
  datatype Event =
    | Listed
    | Active
    | Opened
    | Received
    | ResponseClosed
    | ConnectionClosed
    | CloseRaised
    | Joined
    | IdleSeen

  datatype Sampler = Sampler(pc: SamplerPc, ready: bool, active: bool)

  datatype Controller = Controller(
    pc: ControllerPc, begun: bool, stop: bool, connected: bool, first: DualStream.Raw, idle: bool)

  datatype State = State(w: Sampler, c: Controller, log: seq<Event>)

  function Init(): State {
    State(Sampler(Unstarted, false, false), Controller(Starting, false, false, false, DualStream.Empty, false), [])
  }

  // -- The sampler's steps -------------------------------------------------------------------

  /** `List` is a slot list that passes its checks, `Caught` an exception that the loop catches, `Uncaught` any
      other. */
  datatype SamplerMove = Go | List(view: View) | Caught | Uncaught

  datatype SamplerEffect = SamplerEffect(w: Sampler, events: seq<Event>)

  function SamplerStep(w: Sampler, c: Controller, move: SamplerMove): Option<SamplerEffect> {
    match w.pc
    case Unstarted => if c.begun then Some(SamplerEffect(w.(pc := Checking), [])) else None
    case Checking => Some(SamplerEffect(w.(pc := if c.stop then Gone else Polling), []))
    case Polling =>
      if move.List? then Some(SamplerEffect(w.(pc := Readying(move.view)), []))
      else if move.Caught? then Some(SamplerEffect(w.(pc := Pausing), []))
      else if move.Uncaught? then Some(SamplerEffect(w.(pc := Gone), []))
      else None
    case Readying(view) => Some(SamplerEffect(w.(pc := Viewing(view), ready := true), [Listed]))
    case Viewing(view) =>
      if view == Some(false) then Some(SamplerEffect(w.(pc := Leaving, active := true), [Active]))
      else Some(SamplerEffect(w.(pc := Pausing), []))
    case Pausing => Some(SamplerEffect(w.(pc := Checking), []))
    case Leaving => Some(SamplerEffect(w.(pc := Gone), []))
    case Gone => None
  }

  // -- The controller's steps ----------------------------------------------------------------

  /** `Line` is what is read from the stream, `Poll` a view of the slot, `TimeUp` the end of a wait. */
  datatype ControllerMove = Proceed | Line(raw: DualStream.Raw) | Poll(idle: bool) | TimeUp | Error

  datatype ControllerEffect = ControllerEffect(c: Controller, events: seq<Event>)

  function ControllerStep(c: Controller, w: Sampler, move: ControllerMove): Option<ControllerEffect> {
    match c.pc
    case Starting =>
      Some(ControllerEffect(if move.Error? then c.(pc := Failed) else c.(pc := AwaitingReady, begun := true), []))
    case AwaitingReady =>
      if w.ready then Some(ControllerEffect(c.(pc := Opening), []))
      else if move.TimeUp? then Some(ControllerEffect(c.(pc := GivingUp, stop := true), []))
      else None
    case GivingUp => Some(ControllerEffect(c.(pc := Failed), []))
    case Opening =>
      if move.Error? then Some(ControllerEffect(c.(pc := StoppingSampler(false)), []))
      else Some(ControllerEffect(c.(pc := Watching, connected := true), [Opened]))
    case Watching => if w.active || move.TimeUp? then Some(ControllerEffect(c.(pc := Reading), [])) else None
    case Reading =>
      if move.Line? && move.raw.Sse? then
        Some(ControllerEffect(c.(pc := ClosingResponse(true), first := move.raw), [Received]))
      else if move.Line? || move.Error? then Some(ControllerEffect(c.(pc := ClosingResponse(false)), []))
      else None
    case ClosingResponse(ok) =>
      if move.Error? then Some(ControllerEffect(c.(pc := Failed), [CloseRaised]))
      else Some(ControllerEffect(c.(pc := ClosingConnection(ok)), [ResponseClosed]))
    case ClosingConnection(ok) =>
      if move.Error? then Some(ControllerEffect(c.(pc := Failed), [CloseRaised]))
      else Some(ControllerEffect(c.(pc := StoppingSampler(ok)), [ConnectionClosed]))
    case StoppingSampler(ok) => Some(ControllerEffect(c.(pc := JoiningSampler(ok), stop := true), []))
    case JoiningSampler(ok) =>
      if w.pc.Gone? then Some(ControllerEffect(c.(pc := if ok then IdlePolling else Failed), [Joined]))
      else if move.TimeUp? then Some(ControllerEffect(c.(pc := Failed), []))
      else None
    case IdlePolling =>
      if move.Poll? && move.idle then Some(ControllerEffect(c.(pc := Returned, idle := true), [IdleSeen]))
      else if move.Poll? then Some(ControllerEffect(c, []))
      else if move.TimeUp? then Some(ControllerEffect(c.(pc := Returned), []))
      else if move.Error? then Some(ControllerEffect(c.(pc := Failed), []))
      else None
    case Returned => None
    case Failed => None
  }

  datatype Action = Sampling(move: SamplerMove) | Controlling(cmove: ControllerMove)

  function Step(s: State, a: Action): Option<State> {
    match a
    case Sampling(move) =>
      var e := SamplerStep(s.w, s.c, move);
      if e.Some? then Some(s.(w := e.value.w, log := s.log + e.value.events)) else None
    case Controlling(move) =>
      var e := ControllerStep(s.c, s.w, move);
      if e.Some? then Some(s.(c := e.value.c, log := s.log + e.value.events)) else None
  }

  ghost predicate Next(s: State, t: State) {
    exists a :: Step(s, a) == Some(t)
  }

  /** The states one thread schedule passes through, from the first to the last. */
  ghost predicate IsRun(states: seq<State>) {
    && states != [] && states[0] == Init()
    && (forall n :: 0 < n < |states| ==> Next(states[n - 1], states[n]))
  }

  ghost predicate Reachable(s: State) {
    exists states :: IsRun(states) && states[|states| - 1] == s
  }

  lemma RunContinues(states: seq<State>, a: Action)
    requires IsRun(states) && Step(states[|states| - 1], a).Some?
    ensures IsRun(states + [Step(states[|states| - 1], a).value])
  {
    var longer := states + [Step(states[|states| - 1], a).value];
    forall n | 0 < n < |longer|
      ensures Next(longer[n - 1], longer[n])
    {
      assert n < |states| ==> longer[n - 1] == states[n - 1] && longer[n] == states[n];
    }
  }

  // -- What a log promises -------------------------------------------------------------------

  predicate Sampled(e: Event) {
    e.Listed? || e.Active?
  }

  /** The controller's own events, in order. */
  function Own(log: seq<Event>): seq<Event> {
    if log == [] then []
    else if Sampled(log[|log| - 1]) then Own(log[..|log| - 1])
    else Own(log[..|log| - 1]) + [log[|log| - 1]]
  }

  lemma OwnOf(log: seq<Event>, e: Event)
    ensures Own(log + [e]) == if Sampled(e) then Own(log) else Own(log) + [e]
  {
    assert (log + [e])[..|log|] == log;
  }

  lemma {:induction false} OwnMembers(log: seq<Event>, e: Event)
    requires !Sampled(e)
    ensures e in Own(log) <==> e in log
  {
    if log != [] {
      OwnMembers(log[..|log| - 1], e);
    }
  }

  /** The stream is opened only once the slots have been listed, and the sampler is silent once it is joined. */
  ghost predicate Due(before: seq<Event>, e: Event) {
    match e
    case Listed => Joined !in before
    case Active => Listed in before && Joined !in before
    case Opened => Listed in before
    case _ => true
  }

  ghost predicate Ordered(log: seq<Event>) {
    forall j :: 0 <= j < |log| ==> Due(log[..j], log[j])
  }

  lemma OrderedExtends(log: seq<Event>, e: Event)
    requires Ordered(log) && Due(log, e)
    ensures Ordered(log + [e])
  {
    var longer := log + [e];
    forall j | 0 <= j < |longer|
      ensures Due(longer[..j], longer[j])
    {
      assert longer[..j] == if j < |log| then log[..j] else log;
    }
  }

  // -- What every reachable state keeps ------------------------------------------------------

  function Cut(c: Controller, ok: bool): seq<Event> {
    if ok then [Opened, Received, ResponseClosed, ConnectionClosed]
    else if c.connected then [Opened, ResponseClosed, ConnectionClosed]
    else []
  }

  /** What the controller has done on its way to a control point that it has not failed before. */
  function Trail(c: Controller): seq<Event> {
    match c.pc
    case Watching => [Opened]
    case Reading => [Opened]
    case ClosingResponse(ok) => if ok then [Opened, Received] else [Opened]
    case ClosingConnection(ok) => if ok then [Opened, Received, ResponseClosed] else [Opened, ResponseClosed]
    case StoppingSampler(ok) => Cut(c, ok)
    case JoiningSampler(ok) => Cut(c, ok)
    case IdlePolling => Cut(c, true) + [Joined]
    case Returned => Cut(c, true) + [Joined] + if c.idle then [IdleSeen] else []
    case _ => []
  }

  /** No exception is on its way out. */
  predicate Undisturbed(pc: ControllerPc) {
    match pc
    case ClosingResponse(ok) => ok
    case ClosingConnection(ok) => ok
    case StoppingSampler(ok) => ok
    case JoiningSampler(ok) => ok
    case IdlePolling => true
    case Returned => true
    case _ => false
  }

  predicate PastReady(pc: ControllerPc) {
    !pc.Starting? && !pc.AwaitingReady? && !pc.GivingUp? && !pc.Failed?
  }

  predicate PastStop(pc: ControllerPc) {
    pc.GivingUp? || pc.JoiningSampler? || pc.IdlePolling? || pc.Returned?
  }

  predicate Connected(pc: ControllerPc) {
    pc.Watching? || pc.Reading? || pc.ClosingResponse? || pc.ClosingConnection?
  }

  predicate Unopened(pc: ControllerPc) {
    pc.Starting? || pc.AwaitingReady? || pc.GivingUp? || pc.Opening?
  }

  /** Which events have happened. */
  datatype Marks = Marks(
    listed: bool, active: bool, begun: bool, response: bool, connection: bool, raised: bool, joined: bool)

  function MarksOf(log: seq<Event>): Marks {
    Marks(Listed in log, Active in log, Opened in log, ResponseClosed in log, ConnectionClosed in log,
          CloseRaised in log, Joined in log)
  }

  function Marked(m: Marks, e: Event): Marks {
    match e
    case Listed => m.(listed := true)
    case Active => m.(active := true)
    case Opened => m.(begun := true)
    case ResponseClosed => m.(response := true)
    case ConnectionClosed => m.(connection := true)
    case CloseRaised => m.(raised := true)
    case Joined => m.(joined := true)
    case _ => m
  }

  lemma MarksExtend(log: seq<Event>, e: Event)
    ensures MarksOf(log + [e]) == Marked(MarksOf(log), e)
  {
    assert forall x :: x in log + [e] <==> x in log || x == e;
  }

  predicate SamplerGood(w: Sampler, m: Marks) {
    && w.active == m.active && w.ready == m.listed
    && (w.pc.Viewing? || w.pc.Leaving? ==> w.ready)
    && (m.joined ==> w.pc.Gone?)
  }

  predicate ControllerGood(c: Controller, m: Marks) {
    && (PastReady(c.pc) ==> m.listed)
    && (Connected(c.pc) ==> c.connected && m.begun && !m.connection)
    && (Unopened(c.pc) ==> !m.begun && !m.connection && !c.connected)
    && (c.pc.ClosingConnection? ==> m.response)
    && (m.begun && !Connected(c.pc) && !m.raised ==> m.response && m.connection)
    && (m.raised ==> c.pc.Failed? && !m.connection)
    && (m.joined ==> c.pc.IdlePolling? || c.pc.Returned? || c.pc.Failed?)
    && (Undisturbed(c.pc) ==> c.first.Sse?) && (c.idle ==> c.pc.Returned?)
    && (!c.pc.Failed? ==> c.begun == !c.pc.Starting?)
    && (c.stop == if c.pc.Failed? then c.begun && !m.raised else PastStop(c.pc))
  }

  ghost predicate Inv(s: State) {
    && Ordered(s.log) && (s.c.pc.Failed? || Own(s.log) == Trail(s.c))
    && SamplerGood(s.w, MarksOf(s.log)) && ControllerGood(s.c, MarksOf(s.log))
  }

  lemma SamplerSays(w: Sampler, c: Controller, move: SamplerMove, m: Marks)
    requires SamplerStep(w, c, move).Some? && SamplerGood(w, m)
    ensures var e := SamplerStep(w, c, move).value;
            && |e.events| <= 1 && (e.events != [] ==> Sampled(e.events[0]) && !m.joined)
            && (e.events == [Active] ==> m.listed)
  {
  }

  lemma SamplerKeeps(w: Sampler, c: Controller, move: SamplerMove, m: Marks)
    requires SamplerStep(w, c, move).Some? && SamplerGood(w, m)
    ensures var e := SamplerStep(w, c, move).value;
            && (e.events == [] ==> SamplerGood(e.w, m))
            && (|e.events| == 1 ==> SamplerGood(e.w, Marked(m, e.events[0])))
  {
  }

  /** What the sampler does is nothing to the controller, and conversely up to the joining. */
  lemma OtherKeeps(w: Sampler, c: Controller, m: Marks, e: Event)
    ensures Sampled(e) && ControllerGood(c, m) ==> ControllerGood(c, Marked(m, e))
    ensures !Sampled(e) && SamplerGood(w, m) && (e.Joined? ==> w.pc.Gone?) ==> SamplerGood(w, Marked(m, e))
  {
  }

  lemma ControllerSays(c: Controller, w: Sampler, move: ControllerMove, m: Marks)
    requires ControllerStep(c, w, move).Some? && ControllerGood(c, m)
    ensures var e := ControllerStep(c, w, move).value;
            && |e.events| <= 1 && (e.events != [] ==> !Sampled(e.events[0])) && (e.events == [Opened] ==> m.listed)
            && (e.events == [Joined] ==> w.pc.Gone?)
  {
  }

  lemma ControllerKeepsQuietly(c: Controller, w: Sampler, move: ControllerMove, m: Marks)
    requires ControllerStep(c, w, move).Some? && ControllerStep(c, w, move).value.events == []
    requires w.ready == m.listed && ControllerGood(c, m)
    ensures ControllerGood(ControllerStep(c, w, move).value.c, m)
  {
  }

  predicate Closing(pc: ControllerPc) {
    pc.ClosingResponse? || pc.ClosingConnection?
  }

  lemma ClosingKeeps(c: Controller, w: Sampler, move: ControllerMove, m: Marks)
    requires ControllerStep(c, w, move).Some? && Closing(c.pc) && ControllerGood(c, m)
    ensures var e := ControllerStep(c, w, move).value; |e.events| == 1 && ControllerGood(e.c, Marked(m, e.events[0]))
  {
  }

  lemma OpeningKeeps(c: Controller, w: Sampler, move: ControllerMove, m: Marks)
    requires ControllerStep(c, w, move).Some? && |ControllerStep(c, w, move).value.events| == 1
    requires ControllerGood(c, m) && (c.pc.Opening? || c.pc.Reading?)
    ensures var e := ControllerStep(c, w, move).value; ControllerGood(e.c, Marked(m, e.events[0]))
  {
  }

  lemma EndingKeeps(c: Controller, w: Sampler, move: ControllerMove, m: Marks)
    requires ControllerStep(c, w, move).Some? && |ControllerStep(c, w, move).value.events| == 1
    requires ControllerGood(c, m) && !Closing(c.pc) && !c.pc.Opening? && !c.pc.Reading?
    ensures var e := ControllerStep(c, w, move).value; ControllerGood(e.c, Marked(m, e.events[0]))
  {
    match c.pc {
      case JoiningSampler(_) =>
      case IdlePolling =>
    }
  }

  lemma ControllerKeepsTrail(c: Controller, w: Sampler, move: ControllerMove, m: Marks)
    requires ControllerStep(c, w, move).Some? && ControllerGood(c, m)
    ensures !c.pc.Failed?
    ensures var e := ControllerStep(c, w, move).value; e.c.pc.Failed? || Trail(e.c) == Trail(c) + e.events
  {
  }

  lemma ControllerKeepsGood(c: Controller, w: Sampler, move: ControllerMove, m: Marks)
    requires ControllerStep(c, w, move).Some? && ControllerGood(c, m) && SamplerGood(w, m)
    requires |ControllerStep(c, w, move).value.events| <= 1
    ensures var e := ControllerStep(c, w, move).value;
            && (e.events == [] ==> ControllerGood(e.c, m))
            && (e.events != [] ==> ControllerGood(e.c, Marked(m, e.events[0])))
  {
    assert w.ready == m.listed;
    hide ControllerStep, Marked, SamplerGood, ControllerGood;
    if ControllerStep(c, w, move).value.events == [] {
      ControllerKeepsQuietly(c, w, move, m);
    } else if Closing(c.pc) {
      ClosingKeeps(c, w, move, m);
    } else if c.pc.Opening? || c.pc.Reading? {
      OpeningKeeps(c, w, move, m);
    } else {
      EndingKeeps(c, w, move, m);
    }
  }

  lemma LogKeeps(log: seq<Event>, events: seq<Event>)
    requires Ordered(log) && |events| <= 1 && (events != [] ==> Due(log, events[0]))
    ensures Ordered(log + events)
    ensures events == [] ==> log + events == log
    ensures events != [] ==>
      && MarksOf(log + events) == Marked(MarksOf(log), events[0])
      && Own(log + events) == if Sampled(events[0]) then Own(log) else Own(log) + events
  {
    if events == [] {
      assert log + events == log;
    } else {
      assert events == [events[0]];
      MarksExtend(log, events[0]);
      OrderedExtends(log, events[0]);
      OwnOf(log, events[0]);
    }
  }

  lemma SamplingKeepsInv(s: State, move: SamplerMove)
    requires Inv(s) && Step(s, Sampling(move)).Some?
    ensures Inv(Step(s, Sampling(move)).value)
  {
    var m, e := MarksOf(s.log), SamplerStep(s.w, s.c, move).value;
    SamplerSays(s.w, s.c, move, m);
    SamplerKeeps(s.w, s.c, move, m);
    hide SamplerStep, Marked, SamplerGood, ControllerGood, Trail, Ordered, Own;
    LogKeeps(s.log, e.events);
    if e.events != [] {
      OtherKeeps(s.w, s.c, m, e.events[0]);
    }
  }

  lemma ControllingKeepsInv(s: State, move: ControllerMove)
    requires Inv(s) && Step(s, Controlling(move)).Some?
    ensures Inv(Step(s, Controlling(move)).value)
  {
    hide ControllerStep, Marked, SamplerGood, ControllerGood, Trail, Ordered, Own;
    var m, e := MarksOf(s.log), ControllerStep(s.c, s.w, move).value;
    ControllerSays(s.c, s.w, move, m);
    ControllerKeepsTrail(s.c, s.w, move, m);
    ControllerKeepsGood(s.c, s.w, move, m);
    LogKeeps(s.log, e.events);
    if e.events != [] {
      OtherKeeps(s.w, s.c, m, e.events[0]);
    }
  }

  lemma StepKeepsInv(s: State, a: Action)
    requires Inv(s) && Step(s, a).Some?
    ensures Inv(Step(s, a).value)
  {
    match a {
      case Sampling(move) => SamplingKeepsInv(s, move);
      case Controlling(move) => ControllingKeepsInv(s, move);
    }
  }

  lemma {:induction false} RunKeepsInv(states: seq<State>, n: nat)
    requires IsRun(states) && n < |states|
    ensures Inv(states[n])
  {
    if n > 0 {
      RunKeepsInv(states, n - 1);
      assert Next(states[n - 1], states[n]);
      var a :| Step(states[n - 1], a) == Some(states[n]);
      StepKeepsInv(states[n - 1], a);
    }
  }

  // -- Whole runs ----------------------------------------------------------------------------

  /** The record that a return makes. */
  function ReportOf(s: State): Disconnect
    requires s.c.first.Sse?
  {
    Disconnect(s.w.active, s.c.first != DualStream.Empty, !s.c.first.stop, s.c.idle)
  }

  lemma LogOrdered(log: seq<Event>)
    requires Ordered(log)
    ensures forall j :: 0 <= j < |log| ==> Due(log[..j], log[j])
  {
  }

  lemma ReturnedIsOrdered(s: State)
    requires Inv(s) && s.c.pc.Returned?
    ensures s.c.first.Sse? && s.w.pc.Gone? && (s.w.active <==> Active in s.log) && (s.c.idle <==> IdleSeen in s.log)
    ensures Own(s.log) == [Opened, Received, ResponseClosed, ConnectionClosed, Joined]
                          + (if s.c.idle then [IdleSeen] else [])
    ensures forall j :: 0 <= j < |s.log| && s.log[j] == Opened ==> Listed in s.log[..j]
    ensures forall j :: 0 <= j < |s.log| && s.log[j] == Active ==> Listed in s.log[..j] && Joined !in s.log[..j]
  {
    hide Own;
    assert Own(s.log) == Trail(s.c);
    OwnMembers(s.log, Joined);
    OwnMembers(s.log, IdleSeen);
    hide Ordered, Trail;
    assert forall j :: 0 <= j < |s.log| ==> Due(s.log[..j], s.log[j]) by { LogOrdered(s.log); }
  }

  /** Under every schedule, fault and timeout: a run that returns has opened the stream after a first slot list, read
      the event, closed both halves, joined the sampler and only then looked for an idle slot, each of them once. Its
      record says of the log what happened: the slot was seen active exactly when a list said so before the joining,
      and idle exactly when one said so after it. */
  lemma ReturnedRunIsOrdered(states: seq<State>)
    requires IsRun(states) && states[|states| - 1].c.pc.Returned?
    ensures var s := states[|states| - 1];
            && s.c.first.Sse? && s.w.pc.Gone?
            && Own(s.log) == [Opened, Received, ResponseClosed, ConnectionClosed, Joined]
                             + (if s.c.idle then [IdleSeen] else [])
            && (forall j :: 0 <= j < |s.log| && s.log[j] == Opened ==> Listed in s.log[..j])
            && (forall j :: 0 <= j < |s.log| && s.log[j] == Active ==> Listed in s.log[..j] && Joined !in s.log[..j])
            && ReportOf(s).firstObserved
            && (ReportOf(s).activeObserved <==> Active in s.log) && (ReportOf(s).idleAfter <==> IdleSeen in s.log)
  {
    hide Next, Inv;
    RunKeepsInv(states, |states| - 1);
    ReturnedIsOrdered(states[|states| - 1]);
  }

  /** A run that returns makes this record. */
  ghost predicate Reported(d: Disconnect) {
    exists states: seq<State> ::
      && IsRun(states) && states[|states| - 1].c.pc.Returned? && states[|states| - 1].c.first.Sse?
      && d == ReportOf(states[|states| - 1])
  }

  lemma ReportsObserved(d: Disconnect)
    requires Reported(d)
    ensures d.firstObserved
  {
  }

  /** A run that fails has told a sampler that it started to stop exactly when closing did not raise, and exactly
      then it has closed both halves of a stream that it opened. */
  lemma FailedRunStopsItsSampler(states: seq<State>)
    requires IsRun(states) && states[|states| - 1].c.pc.Failed?
    ensures var s := states[|states| - 1];
            && (s.c.stop <==> s.c.begun && CloseRaised !in s.log)
            && (Opened in s.log ==>
                  (ResponseClosed in s.log && ConnectionClosed in s.log <==> CloseRaised !in s.log))
  {
    hide Next;
    RunKeepsInv(states, |states| - 1);
  }

  /** How many steps at most a sampler that was told to stop still takes. */
  function StepsLeft(pc: SamplerPc): nat {
    match pc
    case Unstarted => 2
    case Checking => 1
    case Polling => 5
    case Readying(_) => 4
    case Viewing(_) => 3
    case Pausing => 2
    case Leaving => 1
    case Gone => 0
  }

  /** Once told to stop the sampler ends within five steps of its own, whatever it polls; it only ever waits for a
      poll. */
  lemma StoppedSamplerEnds(w: Sampler, c: Controller, move: SamplerMove)
    requires c.begun && c.stop
    ensures SamplerStep(w, c, move).Some? ==> StepsLeft(SamplerStep(w, c, move).value.w.pc) < StepsLeft(w.pc) <= 5
    ensures SamplerStep(w, c, move).None? <==> w.pc.Gone? || (w.pc.Polling? && move.Go?)
  {
  }

  // -- Runs in full --------------------------------------------------------------------------

  lemma Moves(s: State, a: Action) returns (t: State)
    requires Reachable(s) && Step(s, a).Some?
    ensures Reachable(t) && t == Step(s, a).value
  {
    t := Step(s, a).value;
    var states :| IsRun(states) && states[|states| - 1] == s;
    RunContinues(states, a);
    assert (states + [t])[|states + [t]| - 1] == t;
  }

  lemma GetsReady(view: View) returns (s: State)
    ensures Reachable(s)
    ensures s == State(Sampler(Viewing(view), true, false),
                       Controller(Opening, true, false, false, DualStream.Empty, false), [Listed])
  {
    s := Init();
    assert IsRun([s]);
    s := Moves(s, Controlling(Proceed));
    s := Moves(s, Sampling(Go));
    s := Moves(s, Sampling(Go));
    s := Moves(s, Sampling(List(view)));
    s := Moves(s, Sampling(Go));
    s := Moves(s, Controlling(Proceed));
  }

  /** The sampler finds the slot busy and ends. */
  lemma SeesActive(s: State) returns (t: State)
    requires Reachable(s) && s.w == Sampler(Viewing(Some(false)), true, false)
    ensures Reachable(t) && t == State(Sampler(Gone, true, true), s.c, s.log + [Active])
  {
    t := Moves(s, Sampling(Go));
    t := Moves(t, Sampling(Go));
  }

  /** It finds the slot idle and lists the slots again. */
  lemma ListsAgain(s: State) returns (t: State)
    requires Reachable(s) && s.w == Sampler(Viewing(Some(true)), true, false) && !s.c.stop
    ensures Reachable(t) && t == State(Sampler(Viewing(Some(false)), true, false), s.c, s.log + [Listed])
  {
    t := Moves(s, Sampling(Go));
    t := Moves(t, Sampling(Go));
    t := Moves(t, Sampling(Go));
    t := Moves(t, Sampling(List(Some(false))));
    t := Moves(t, Sampling(Go));
  }

  lemma Opens(s: State) returns (t: State)
    requires Reachable(s) && s.c.pc.Opening?
    ensures Reachable(t) && t == State(s.w, s.c.(pc := Watching, connected := true), s.log + [Opened])
  {
    t := Moves(s, Controlling(Proceed));
  }

  lemma Closes(s: State) returns (t: State)
    requires Reachable(s) && s.c.pc == ClosingResponse(true)
    ensures Reachable(t) && t.w == s.w && t.c == s.c.(pc := StoppingSampler(true))
    ensures t.log == s.log + [ResponseClosed, ConnectionClosed]
  {
    t := Moves(s, Controlling(Proceed));
    t := Moves(t, Controlling(Proceed));
  }

  lemma Reads(s: State, stop: bool) returns (t: State)
    requires Reachable(s) && s.c.pc.Watching?
    ensures Reachable(t) && t.w == s.w
    ensures t.c == s.c.(pc := StoppingSampler(true), first := DualStream.Sse(stop))
    ensures t.log == s.log + [Received, ResponseClosed, ConnectionClosed]
  {
    t := Moves(s, Controlling(TimeUp));
    t := Moves(t, Controlling(Line(DualStream.Sse(stop))));
    t := Closes(t);
  }

  lemma Ends(s: State) returns (t: State)
    requires Reachable(s) && s.c.pc == StoppingSampler(true) && s.w.pc.Gone?
    ensures Reachable(t) && t.w == s.w && t.c == s.c.(pc := Returned, stop := true, idle := true)
    ensures t.log == s.log + [Joined, IdleSeen]
  {
    t := Moves(s, Controlling(Proceed));
    t := Moves(t, Controlling(Proceed));
    t := Moves(t, Controlling(Poll(true)));
  }

  ghost predicate Returns(log: seq<Event>, d: Disconnect) {
    exists s: State :: Reachable(s) && s.c.pc.Returned? && s.c.first.Sse? && s.log == log && d == ReportOf(s)
  }

  /** A run in which everything goes as intended. */
  lemma SomeRunReturns(stop: bool)
    ensures Returns([Listed, Opened, Listed, Active, Received, ResponseClosed, ConnectionClosed, Joined, IdleSeen],
                    Disconnect(true, true, !stop, true))
  {
    var s := GetsReady(Some(true));
    s := Opens(s);
    s := ListsAgain(s);
    s := SeesActive(s);
    s := Reads(s, stop);
    s := Ends(s);
  }

  lemma SomeReport(stop: bool)
    ensures Reported(Disconnect(true, true, !stop, true))
  {
    SomeRunReturns(stop);
  }

  /** The record alone does not show that the slot was active while the stream was: the same record is made when the
      slot was seen active before the stream was opened. */
  lemma ActiveBeforeOpening(stop: bool)
    ensures Returns([Listed, Active, Opened, Received, ResponseClosed, ConnectionClosed, Joined, IdleSeen],
                    Disconnect(true, true, !stop, true))
  {
    var s := GetsReady(Some(false));
    s := SeesActive(s);
    s := Opens(s);
    s := Reads(s, stop);
    s := Ends(s);
  }

  /** And when it was seen active only after both halves had been closed. */
  lemma ActiveAfterClosing(stop: bool)
    ensures Returns([Listed, Listed, Opened, Received, ResponseClosed, ConnectionClosed, Active, Joined, IdleSeen],
                    Disconnect(true, true, !stop, true))
  {
    var s := GetsReady(Some(true));
    s := ListsAgain(s);
    s := Opens(s);
    s := Reads(s, stop);
    s := SeesActive(s);
    s := Ends(s);
  }

  /** A response whose closing raises does leave the sampler running, and the connection open. */
  lemma RaisingCloseLeavesSampler()
    ensures exists s: State ::
              && Reachable(s) && s.c.pc.Failed? && s.w.pc.Viewing? && !s.c.stop
              && s.log == [Listed, Opened, Received, CloseRaised]
  {
    var s := GetsReady(None);
    s := Opens(s);
    s := Moves(s, Controlling(TimeUp));
    s := Moves(s, Controlling(Line(DualStream.Sse(false))));
    s := Moves(s, Controlling(Error));
  }
}
