/** The daemon as a whole: the engine, its command queue, and everything the
    commands drive, in an environment that may do anything at any time.

    The queue is drained one command at a time; events are taken only when it
    is empty. What the outside answers to a command (does the RTC write work,
    does logind take the request, does the new config parse) is an `Answer`,
    what it does on its own is an `Input`; both are arbitrary. */
module World {
  import opened Types
  import opened Transition
  import opened Effects
  import opened Invariants
  import opened Discipline
  import opened Agent
  import opened Supply
  import opened Wake

  datatype World = World(
    core: Core,
    queue: seq<Command>,
    fx: Effects,                      // what the executed commands have done; no pivots
    link: Link,
    rtc: Option<Device>,              // the RTC handle, if [server] has a usable one
    cells: map<Device, nat>,          // alarms armed in this run, in the hardware
    armedAt: Option<Instant>,         // the alarm armed since the last event
    logind: Option<bool>,             // None: no logind; Some(h): whether it can hibernate
    inflight: nat,                    // sleep requests taken by logind and not answered
    feed: Feed,                       // the supply actor and its channel
    asked: multiset<RequestId>,       // requests received
    count: nat,                       // failed attempts in a row, counted from outside
    stranded: bool,                   // some Grace with a dark panel was ended by AC
    missed: bool,                     // some CancelWake left an alarm in the hardware
    down: bool)                       // Shutdown has been executed

  datatype Answer = Answer(
    now: Instant,                     // when the wake was requested
    setNow: Instant,                  // when it reached the RTC
    writes: (bool, bool),             // do the two writes of an alarm work
    clears: bool,                     // does clearing it work
    accepted: bool,                   // is there room in logind's request channel
    parsed: Option<Config>,           // what the config file parses to
    discovered: bool)                 // does the configured RTC have an alarm

  function Virtual(w: World): Effects {
    After(w.fx, w.queue)
  }

  function ContextOf(w: World): Context {
    Context(w.inflight, w.armedAt)
  }

  function PowerOf(c: Core): Snapshot {
    Snapshot(c.ac, c.battery)
  }

  // -------------------------------------------------------------- executing

  function Cell(cells: map<Device, nat>, d: Device): Option<nat> {
    if d in cells then Some(cells[d]) else None
  }

  function PutCell(cells: map<Device, nat>, d: Device, cell: Option<nat>): map<Device, nat> {
    if cell.Some? then cells[d := cell.value] else cells - {d}
  }

  function ArmRtc(rtc: Option<Device>, cells: map<Device, nat>, at: Instant, a: Answer): (bool, map<Device, nat>) {
    match rtc
    case None => (false, cells)
    case Some(d) =>
      var (r, cell) := SetAlarm(Cell(cells, d), at, a.setNow, a.writes);
      (r.Ok?, PutCell(cells, d, cell))
  }

  function ClearRtc(rtc: Option<Device>, cells: map<Device, nat>, clears: bool): map<Device, nat> {
    match rtc
    case None => cells
    case Some(d) => PutCell(cells, d, KernelWrite(Cell(cells, d), 0, clears).1)
  }

  function RtcFor(config: Config, discovered: bool): Option<Device> {
    if config.server.enabled && discovered then Some(config.server.rtcDevice) else None
  }

  /** Better to sleep than to fail outright: what logind is really asked for. */
  function Usable(how: SleepMethod, canHibernate: bool): SleepMethod {
    if how.NeedsHibernate() && !canHibernate then Suspend else how
  }

  /** A config that does not parse or validate leaves everything as it was. */
  function Load(parsed: Option<Config>): Option<Config> {
    if parsed.Some? && Validate(parsed.value).Ok? then parsed else None
  }

  /** The daemon hands an event to the engine in the middle of a drain; what
      comes back goes to the end of the queue. */
  function FeedBack(w: World, e: Event): World {
    var o := Handle(w.core, e);
    w.(core := o.core, queue := w.queue + o.cmds, count := CountFailures(w.core, e, o.core.state, w.count))
  }

  function ExecuteScheduleWake(w: World, after: Duration, a: Answer): World {
    var at := a.now + after;
    var (armed, cells) := ArmRtc(w.rtc, w.cells, at, a);
    var w' := w.(cells := cells,
                 fx := w.fx.(scheduled := if armed then Some(at) else None, live := armed || w.fx.live),
                 armedAt := if armed then Some(at) else w.armedAt);
    FeedBack(w', WakeScheduled(armed))
  }

  function ExecuteReload(w: World, replyTo: Option<RequestId>, a: Answer): World {
    match Load(a.parsed)
    case None =>
      if replyTo.Some? then w.(fx := w.fx.(answered := w.fx.answered + multiset{replyTo.value})) else w
    case Some(config) =>
      var o := SetConfig(w.core, config);
      w.(core := o.core,
         queue := w.queue + (o.cmds + (if replyTo.Some? then [Reply(replyTo.value, Done)] else [])),
         link := SetDisplay(w.link, config.display),
         rtc := if config.server != w.core.config.server then RtcFor(config, a.discovered) else w.rtc)
  }

  /** One turn of the drain loop: the head of the queue. */
  function Execute(w: World, a: Answer): World
    requires w.queue != []
  {
    var c := w.queue[0];
    var w' := w.(queue := w.queue[1..]);
    match c
    case GoToSleep(_, _) =>
      if w.logind.Some? && a.accepted then w'.(inflight := w.inflight + 1) else FeedBack(w', SleepFailed)
    case ScheduleWake(after) => ExecuteScheduleWake(w', after, a)
    case CancelWake =>
      var cells := ClearRtc(w.rtc, w.cells, a.clears);
      w'.(fx := Apply(w.fx, c), cells := cells, missed := w.missed || cells != map[])
    case Reload(replyTo) => ExecuteReload(w', replyTo, a)
    case Shutdown => w'.(down := true)
    case PowerOff => w'
    case ReplaceIdleStages(s) => w'.(fx := Apply(w.fx, c), link := ReplaceStages(w.link, s))
    case Screen(on) => w'.(fx := Apply(w.fx, c), link := SetScreen(w.link, on))
    case _ => w'.(fx := Apply(w.fx, c))
  }

  // ---------------------------------------------------------------- inputs

  datatype Input =
    | Signal(event: Event)                    // activity, idleness, lists, reload, shutdown
    | GoesDown(answers: bool)                 // PrepareForSleep(true), perhaps answering a request
    | WakesUp(now: Instant)                   // PrepareForSleep(false)
    | Refuses(event: Event)                   // logind's other two answers
    | TimerDue(timer: TimerId)
    | Client(id: RequestId, request: Request)
    | PowerMoves                              // the oldest event in the supply channel
    | PowerRead(read: Option<Snapshot>)
    | AgentConnects
    | AgentLeaves(id: AgentId)
    | AgentSays(id: AgentId, said: AgentEvent)
    | AlarmRings(device: Device)

  predicate IsSignal(e: Event) {
    e.Idle? || e.Activity? || e.Inhibitors? || e.IdleBackendChanged? || e.ReloadRequested? || e.ShutdownRequested?
  }

  predicate Possible(w: World, i: Input) {
    match i
    case Signal(e) => w.queue == [] && IsSignal(e)
    case GoesDown(answers) => w.queue == [] && (answers ==> w.inflight > 0)
    case WakesUp(_) => w.queue == []
    case Refuses(e) => w.queue == [] && w.inflight > 0 && (e.SleepBlocked? || e.SleepFailed?)
    case TimerDue(id) => w.queue == [] && id in w.fx.timers
    case Client(id, _) => w.queue == [] && id !in w.asked
    case PowerMoves => w.queue == [] && w.feed.channel != []
    case PowerRead(_) | AgentConnects | AgentLeaves(_) | AgentSays(_, _) | AlarmRings(_) => true
  }

  /** The main loop takes an event: a new drain begins. */
  function Deliver(w: World, e: Event): World {
    FeedBack(w, e).(armedAt := None, stranded := w.stranded || Strands(w.core, w.fx, e))
  }

  /** A resume in the cycle is classified first, which forgets the alarm. */
  function WakeEvent(w: World, now: Instant): (World, Event) {
    if w.core.state == LongSleep(Asleep) then
      (w.(fx := w.fx.(scheduled := None)),
       if ClassifyWake(now, w.fx.scheduled, w.core.config.server.alarmSlack) == ByUser then ResumedByUser else Resumed)
    else (w, Resumed)
  }

  function Receive(w: World, i: Input): World
    requires Possible(w, i)
  {
    match i
    case Signal(e) => Deliver(w, e)
    case GoesDown(answers) => Deliver(w.(inflight := if answers then w.inflight - 1 else w.inflight), GoingDown)
    case WakesUp(now) => Deliver(WakeEvent(w, now).0, WakeEvent(w, now).1)
    case Refuses(e) => Deliver(w.(inflight := w.inflight - 1), e)
    case TimerDue(id) => Deliver(w.(fx := w.fx.(timers := w.fx.timers - {id})), TimerFired(id))
    case Client(id, request) => Deliver(w.(asked := w.asked + multiset{id}), Ipc(id, request))
    case PowerMoves => Deliver(w.(feed := w.feed.(channel := w.feed.channel[1..])), w.feed.channel[0])
    case PowerRead(read) => w.(feed := ReadSource(w.feed, read))
    case AgentConnects => w.(link := Register(w.link))
    case AgentLeaves(id) => w.(link := Unregister(w.link, id))
    case AgentSays(id, said) => w.(link := Note(w.link, id, said))
    case AlarmRings(d) => w.(cells := w.cells - {d})
  }

  // ---------------------------------------------------------------- startup

  /** What the daemon finds when it starts. */
  datatype Boot = Boot(
    config: Config, power: Snapshot, savedMode: Option<string>, wasInCycle: bool, logind: Option<bool>, discovered: bool)

  function StartCore(b: Boot): Core {
    var c := NewEngine(b.config, b.power.ac, b.power.battery);
    if b.savedMode.Some? then RestoreManualMode(c, b.savedMode.value) else c
  }

  function StartOut(b: Boot): Out {
    var c := StartCore(b);
    var h := Handle(c, HibernateAvailable(b.logind == Some(true)));
    if b.config.server.enabled && !b.power.ac && b.wasInCycle then
      var r := ResumeCycle(h.core);
      Out(r.core, ModeCommands(c) + h.cmds + r.cmds)
    else
      Out(h.core, ModeCommands(c) + h.cmds)
  }

  function Start(b: Boot): World {
    var o := StartOut(b);
    World(o.core, o.cmds, Effects({}, None, false, NO_STAGES, false, false, o.core.state, true, multiset{}, []),
          NewLink(b.config.display), RtcFor(b.config, b.discovered), map[], None, b.logind, 0, NewFeed(b.power),
          multiset{}, 0, false, false, false)
  }

  // ------------------------------------------------------------------- runs

  datatype Move = Drain(answer: Answer) | Take(input: Input)

  predicate Legal(w: World, m: Move) {
    && !w.down
    && (match m
        case Drain(_) => w.queue != []
        case Take(i) => Possible(w, i))
  }

  function Perform(w: World, m: Move): World
    requires Legal(w, m)
  {
    match m
    case Drain(a) => Execute(w, a)
    case Take(i) => Receive(w, i)
  }

  /** A run from startup: any answers, any inputs, in any order. */
  ghost predicate IsRun(b: Boot, ws: seq<World>, ms: seq<Move>) {
    && |ws| == |ms| + 1 && ws[0] == Start(b) && Validate(b.config).Ok?
    && (forall k :: 0 <= k < |ms| ==> Legal(ws[k], ms[k]) && ws[k + 1] == Perform(ws[k], ms[k]))
  }

  predicate Drained(w: World) {
    w.queue == [] && !w.down
  }
}
