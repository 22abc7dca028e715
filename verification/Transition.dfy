/** The state machine as a function: what `Engine` does to its fields, and the
    commands it sends, for every event. The class in Engine.dfy is proved
    against these functions, and every theorem about runs is about them. */
module Transition {
  import opened Types

  /** The fields of the engine, as a value. */
  datatype Core = Core(
    config: Config,
    state: State,
    mode: ModeSelection,
    ac: bool,
    battery: Option<nat>,
    low: bool,
    inhibits: seq<Inhibit>,
    nextInhibitId: nat,
    external: seq<Inhibitor>,
    pendingSleep: bool,
    suspendFrom: State,
    idleConnected: bool,
    hibernateAvailable: bool,
    sleepFailures: nat,
    interrupted: bool)

  /** One step: the new fields and the commands, in the order they are sent. */
  datatype Out = Out(core: Core, cmds: seq<Command>)

  // ------------------------------------------------------- modes and power

  function StageOf(d: Duration): Option<Duration> {
    if d == 0 then None else Some(d)
  }

  function StagesFromMode(m: Mode): Stages {
    Stages(StageOf(m.dimAfter), StageOf(m.screenOffAfter), StageOf(m.sleepAfter))
  }

  /** The stages of the mode in effect; a mode the config lacks has none. */
  function CurrentStages(c: Core): Stages {
    if c.mode.name in c.config.modes then StagesFromMode(c.config.modes[c.mode.name]) else NO_STAGES
  }

  /** The level at which `low` clears: five above the threshold, saturating as
      a `u8`, and never above 100. */
  function ClearsAt(threshold: nat): nat {
    Min(Min(threshold + 5, 255), 100)
  }

  function ComputeLow(threshold: nat, low: bool, battery: Option<nat>): bool {
    match battery
    case None => false
    case Some(percent) =>
      if percent <= threshold then true
      else if percent >= ClearsAt(threshold) then false
      else low
  }

  function AutoModeName(c: Core): string {
    var auto := c.config.auto;
    if !auto.enabled then
      if c.mode.name != "" then c.mode.name else c.config.firstMode
    else if c.ac then auto.onAc
    else if c.low then auto.onLowBattery
    else auto.onBattery
  }

  function SelectAutoMode(c: Core): (Core, bool) {
    if c.mode.Manual? || AutoModeName(c) == c.mode.name then (c, false)
    else (c.(mode := Auto(AutoModeName(c))), true)
  }

  function ApplyCommands(c: Core): seq<Command> {
    if c.mode.name == "" then [] else [ApplyMode(c.mode.name)]
  }

  /** Past Grace the stages are off for the rest of the cycle. */
  function WantedStages(c: Core): Stages {
    if c.state.PastGrace() then NO_STAGES else CurrentStages(c)
  }

  function ModeCommands(c: Core): seq<Command> {
    ApplyCommands(c) + [ReplaceIdleStages(WantedStages(c))]
  }

  function ModeChanged(c: Core): seq<Command> {
    ModeCommands(c) + [Broadcast(ModeChange(c.mode.name))]
  }

  function ReapplyAutoMode(c: Core): Out {
    var (c', changed) := SelectAutoMode(c);
    Out(c', if changed then ModeChanged(c') else [])
  }

  function SetConfig(c: Core, config: Config): Out {
    var c1 := c.(config := config, low := ComputeLow(config.auto.lowBatteryPercent, c.low, c.battery));
    var c2 := if c1.mode.Auto? then c1.(mode := Auto(AutoModeName(c1))) else c1;
    Out(c2, ModeCommands(c2))
  }

  // -------------------------------------------------------------- startup

  function NewEngine(config: Config, ac: bool, battery: Option<nat>): Core {
    var c0 := Core(config, Active, Auto(""), ac, battery, false, [], 1, [], false, Active, false, true, 0, false);
    var c1 := c0.(low := ComputeLow(config.auto.lowBatteryPercent, false, battery));
    c1.(mode := Auto(AutoModeName(c1)))
  }

  function RestoreManualMode(c: Core, name: string): Core {
    if name in c.config.modes then c.(mode := Manual(name)) else c
  }

  function ResumeCycle(c: Core): Out {
    Out(c.(state := LongSleep(Checking)),
        [ReplaceIdleStages(NO_STAGES)] + [StartTimer(AwakeWindow, c.config.server.awakeWindow)])
  }

  // ----------------------------------------------------- sleep, inhibitors

  predicate IdleInhibited(c: Core) {
    exists i | i in c.inhibits :: i.what == InhibitIdle
  }

  predicate SleepInhibited(inhibits: seq<Inhibit>) {
    exists i | i in inhibits :: i.what == InhibitSleep
  }

  /** Something stands between us and a suspend right now. */
  predicate Blocked(c: Core) {
    c.config.sleep.respectInhibitors && (c.external != [] || SleepInhibited(c.inhibits))
  }

  function ArmSleepRetry(c: Core): Out {
    var retry := c.config.sleep.retry;
    if retry == 0 then Out(c, [])
    else Out(c.(pendingSleep := true), [StartTimer(SleepRetry, retry)])
  }

  function CancelPendingSleep(c: Core): Out {
    Out(c.(pendingSleep := false), if c.pendingSleep then [CancelTimer(SleepRetry)] else [])
  }

  function TrySleep(c: Core, force: bool, armRetry: bool): Out {
    if !force && Blocked(c) then
      if armRetry then ArmSleepRetry(c) else Out(c, [])
    else
      Out(c.(suspendFrom := c.state, state := Suspending, pendingSleep := false),
          [GoToSleep(c.config.sleep.how, force)])
  }

  // --------------------------------------------------------- server cycle

  predicate BatteryCritical(c: Core) {
    c.battery.Some? && c.battery.value <= c.config.server.criticalPercent
  }

  function EnterGrace(c: Core, delay: Duration): Out {
    var o := CancelPendingSleep(c.(state := LongSleep(Grace), sleepFailures := 0, interrupted := false));
    Out(o.core, o.cmds + [StartTimer(GraceTimer, delay)])
  }

  function LeaveCycle(c: Core): Out {
    var (c', changed) := SelectAutoMode(c.(state := Active));
    Out(c', [CancelWake] + ModeCommands(c')
            + (if changed then [Broadcast(ModeChange(c'.mode.name))] else [])
            + [Undim] + [Screen(true)])
  }

  function PowerIsBack(c: Core): Out {
    var o := LeaveCycle(c);
    Out(o.core, (if c.config.server.resumeHook.Some? then [RunHook(c.config.server.resumeHook.value)] else [])
                + o.cmds)
  }

  function CancelCycle(c: Core, phase: Phase): Out {
    var o := LeaveCycle(c.(interrupted := false));
    Out(o.core, (match phase
                 case Grace => [CancelTimer(GraceTimer)]
                 case Armed | Checking => [CancelTimer(AwakeWindow)]
                 case Asleep => []) + o.cmds)
  }

  function Arm(c: Core, first: bool): Out {
    Out(c.(state := LongSleep(Armed)),
        (if first then [ReplaceIdleStages(NO_STAGES)] else []) + [ScheduleWake(c.config.server.checkInterval)])
  }

  function CycleFailure(c: Core): Out {
    var c' := c.(sleepFailures := c.sleepFailures + 1);
    if c'.sleepFailures >= MAX_SLEEP_FAILURES then LeaveCycle(c')
    else Out(c', [StartTimer(AwakeWindow, c.config.server.awakeWindow)])
  }

  function OnWakeScheduled(c: Core, armed: bool): Out {
    if c.state != LongSleep(Armed) then Out(c, [])
    else if !armed then CycleFailure(c)
    else if c.ac then PowerIsBack(c)
    else if Blocked(c) then CycleFailure(c)
    else Out(c, [GoToSleep(c.config.sleep.how, false)])
  }

  function CriticalCommand(c: Core): Command {
    if c.config.server.criticalAction == CriticalHibernate && c.hibernateAvailable
    then GoToSleep(Hibernate, true)
    else PowerOff
  }

  function Critically(c: Core): seq<Command> {
    if BatteryCritical(c) then [Broadcast(PhaseChange(Critical))] + [CriticalCommand(c)] else []
  }

  /** The window also covers a critical action that does not happen. */
  function CheckPower(c: Core): Out {
    if c.ac then PowerIsBack(c)
    else Out(c.(state := LongSleep(Checking)),
             Critically(c) + [StartTimer(AwakeWindow, c.config.server.awakeWindow)])
  }

  // --------------------------------------------------------------- events

  function OnIdle(c: Core, stage: Stage): Out {
    if IdleInhibited(c) then Out(c, [])
    else match stage
      case DimStage =>
        if c.state == Active then Out(c.(state := Dimmed), [Dim(c.config.dimPercent)]) else Out(c, [])
      case ScreenOffStage =>
        if c.state == Active || c.state == Dimmed then Out(c.(state := ScreenOff), [Screen(false)]) else Out(c, [])
      case SleepStage =>
        if c.state.IsAwake() then TrySleep(c, false, true) else Out(c, [])
  }

  function OnActivity(c: Core): Out {
    var o := CancelPendingSleep(c);
    match c.state
    case Dimmed => Out(o.core.(state := Active), o.cmds + [Undim])
    case ScreenOff | Suspending => Out(o.core.(state := Active), o.cmds + [Undim] + [Screen(true)])
    case Active | Sleeping => o
    case LongSleep(Armed) =>
      var f := CycleFailure(o.core);
      Out(f.core, o.cmds + f.cmds)
    case LongSleep(Checking) =>
      var l := LeaveCycle(o.core.(interrupted := true));
      Out(l.core, o.cmds + [CancelTimer(AwakeWindow)] + l.cmds)
    case LongSleep(_) => o
  }

  function OnSleepBlocked(c: Core, list: seq<Inhibitor>): Out {
    var c' := c.(external := list);
    match c.state
    case Suspending => ArmSleepRetry(c'.(state := c.suspendFrom))
    case LongSleep(Armed) => CycleFailure(c')
    case _ => Out(c', [])
  }

  function OnSleepFailed(c: Core): Out {
    match c.state
    case Suspending => OnActivity(c)
    case LongSleep(Armed) => CycleFailure(c)
    case _ => Out(c, [])
  }

  function OnGoingDown(c: Core): Out {
    var c' := c.(pendingSleep := false);
    if c.state.LongSleep? then Out(c'.(sleepFailures := 0, state := LongSleep(Asleep)), [])
    else Out(c'.(state := Sleeping), [])
  }

  function OnResumed(c: Core, byUser: bool): Out {
    var c' := c.(pendingSleep := false);
    if c.state.LongSleep? then
      if byUser && !c.ac then LeaveCycle(c'.(interrupted := true)) else CheckPower(c')
    else
      var c'' := c'.(state := Active);
      Out(c'', [Undim] + [Screen(true)] + [ReplaceIdleStages(CurrentStages(c''))])
  }

  /** The table without the entry `id`, if there is one. */
  function RemoveInhibit(inhibits: seq<Inhibit>, id: nat): seq<Inhibit> {
    if inhibits == [] then []
    else if inhibits[0].id == id then inhibits[1..]
    else [inhibits[0]] + RemoveInhibit(inhibits[1..], id)
  }

  predicate HasInhibit(inhibits: seq<Inhibit>, id: nat) {
    exists i | i in inhibits :: i.id == id
  }

  function OnTimer(c: Core, id: TimerId): Out {
    match id
    case SleepRetry =>
      if c.pendingSleep then TrySleep(c.(pendingSleep := false), false, true) else Out(c, [])
    case InhibitExpiry(inhibit) => Out(c.(inhibits := RemoveInhibit(c.inhibits, inhibit)), [])
    case GraceTimer => if c.state == LongSleep(Grace) then Arm(c, true) else Out(c, [])
    case AwakeWindow =>
      match c.state
      case LongSleep(Armed) => if c.ac then PowerIsBack(c) else Arm(c, false)
      case LongSleep(Checking) => if c.ac || BatteryCritical(c) then CheckPower(c) else Arm(c, false)
      case _ => Out(c, [])
  }

  function OnAcChanged(c: Core, ac: bool): Out {
    if c.ac == ac then Out(c, [])
    else
      var c' := c.(ac := ac);
      var said := [Broadcast(PowerChange(ac))];
      if c.state == LongSleep(Grace) && ac then
        var o := ReapplyAutoMode(c'.(state := Active));
        Out(o.core, said + [CancelTimer(GraceTimer)] + o.cmds)
      else if c.state == LongSleep(Checking) && ac then
        var o := PowerIsBack(c');
        Out(o.core, said + [CancelTimer(AwakeWindow)] + o.cmds)
      else
        var o := ReapplyAutoMode(c');
        if !ac && c.state.IsAwake() && c.config.server.enabled && c.config.server.trigger == AcLost then
          var g := EnterGrace(o.core, c.config.server.gracePeriod);
          Out(g.core, said + o.cmds + g.cmds)
        else
          Out(o.core, said + o.cmds)
  }

  function OnBattery(c: Core, percent: nat): Out {
    var low := ComputeLow(c.config.auto.lowBatteryPercent, c.low, Some(percent));
    var c' := c.(battery := Some(percent), low := low);
    if low == c.low then Out(c', []) else ReapplyAutoMode(c')
  }

  function OnShutdown(c: Core): Out {
    Out(c.(state := Active),
        (if c.state.LongSleep? then [CancelWake] else []) + [Undim] + [Screen(true)] + [Shutdown])
  }

  // ------------------------------------------------------------------ ipc

  function OnSetMode(c: Core, id: RequestId, name: string): Out {
    if name == "auto" then
      var c' := c.(mode := Auto(AutoModeName(c)));
      Out(c', ModeChanged(c') + [Reply(id, Done)])
    else if name !in c.config.modes then Out(c, [Reply(id, Refused(NoSuchMode))])
    else
      var c' := c.(mode := Manual(name));
      Out(c', ModeChanged(c') + [Reply(id, Done)])
  }

  function OnLongSleep(c: Core, id: RequestId, cancel: bool): Out {
    if cancel then
      if c.state.LongSleep? then
        var o := CancelCycle(c, c.state.phase);
        Out(o.core, o.cmds + [Reply(id, Done)])
      else Out(c, [Reply(id, Refused(NotInLongSleep))])
    else if !c.config.server.enabled then Out(c, [Reply(id, Refused(ServerNotEnabled))])
    else if c.state.LongSleep? then Out(c, [Reply(id, Refused(AlreadyInLongSleep))])
    else if !c.state.IsAwake() then Out(c, [Reply(id, Refused(GoingToSleep))])
    else
      var o := EnterGrace(c, 0);
      Out(o.core, o.cmds + [Reply(id, Done)])
  }

  function OnInhibit(c: Core, request: RequestId, what: InhibitWhat, why: string, ttl: Duration): Out {
    var ttl' := Min(ttl, MAX_INHIBIT_TTL);
    if ttl' == 0 then Out(c, [Reply(request, Refused(ZeroTtl))])
    else
      var id := c.nextInhibitId;
      Out(c.(nextInhibitId := id + 1, inhibits := c.inhibits + [Inhibit(id, what, why, ttl')]),
          [StartTimer(InhibitExpiry(id), ttl')] + [Reply(request, Inhibited(id))])
  }

  function OnUninhibit(c: Core, request: RequestId, id: nat): Out {
    if HasInhibit(c.inhibits, id) then
      Out(c.(inhibits := RemoveInhibit(c.inhibits, id)),
          [CancelTimer(InhibitExpiry(id))] + [Reply(request, Done)])
    else Out(c, [Reply(request, Refused(NoSuchInhibitor))])
  }

  function OnRequestSleep(c: Core, id: RequestId, force: bool): Out {
    if c.state.LongSleep? then Out(c, [Reply(id, Refused(InLongSleep))])
    else if !force && Blocked(c) then Out(c, [Reply(id, Refused(BlockedByInhibitors))])
    else
      var o := TrySleep(c, force, false);
      Out(o.core, o.cmds + [Reply(id, Done)])
  }

  function OnIpc(c: Core, id: RequestId, request: Request): Out {
    match request
    case Status => Out(c, [Reply(id, StatusData(c.state))])
    case Modes => Out(c, [Reply(id, ModesData(c.mode))])
    case SetMode(name) => OnSetMode(c, id, name)
    case RequestDim =>
      if c.state == Active
      then Out(c.(state := Dimmed), [Dim(c.config.dimPercent)] + [Reply(id, Done)])
      else Out(c, [Reply(id, Done)])
    case RequestUndim =>
      var o := OnActivity(c);
      Out(o.core, o.cmds + [Reply(id, Done)])
    case RequestScreen(on) =>
      if on then
        var o := OnActivity(c);
        Out(o.core, o.cmds + [Reply(id, Done)])
      else if c.state == Active || c.state == Dimmed
      then Out(c.(state := ScreenOff), [Screen(false)] + [Reply(id, Done)])
      else Out(c, [Reply(id, Done)])
    case RequestSleep(force) => OnRequestSleep(c, id, force)
    case RequestLongSleep(cancel) => OnLongSleep(c, id, cancel)
    case AddInhibit(what, why, ttl) => OnInhibit(c, id, what, why, ttl)
    case Uninhibit(inhibit) => OnUninhibit(c, id, inhibit)
    case RequestReload => Out(c, [Reload(Some(id))])
    case Subscribe | Agent => Out(c, [Reply(id, Refused(NotForTheEngine))])
  }

  // ------------------------------------------------------------- dispatch

  function Dispatch(c: Core, e: Event): Out {
    match e
    case Idle(stage) => OnIdle(c, stage)
    case Activity => OnActivity(c)
    case AcChanged(ac) => OnAcChanged(c, ac)
    case Battery(percent) => OnBattery(c, percent)
    case GoingDown => OnGoingDown(c)
    case Resumed => OnResumed(c, false)
    case ResumedByUser => OnResumed(c, true)
    case TimerFired(id) => OnTimer(c, id)
    case Ipc(id, request) => OnIpc(c, id, request)
    case IdleBackendChanged(connected) => Out(c.(idleConnected := connected), [])
    case HibernateAvailable(available) => Out(c.(hibernateAvailable := available), [])
    case Inhibitors(list) => Out(c.(external := list), [])
    case SleepBlocked(list) => OnSleepBlocked(c, list)
    case SleepFailed => OnSleepFailed(c)
    case WakeScheduled(armed) => OnWakeScheduled(c, armed)
    case ReloadRequested => Out(c, [Reload(None)])
    case ShutdownRequested => OnShutdown(c)
  }

  function ServerPhase(c: Core): PhaseLabel {
    if c.state.LongSleep? then InPhase(c.state.phase)
    else if c.interrupted then Interrupted
    else NotRunning
  }

  /** The broadcasts that follow a change of state. */
  function Announce(from: State, c: Core): seq<Command> {
    if c.state == from then []
    else [Broadcast(StateChange(from, c.state))]
         + (if from.LongSleep? || c.state.LongSleep? then [Broadcast(PhaseChange(ServerPhase(c)))] else [])
  }

  function Handle(c: Core, e: Event): Out {
    var o := Dispatch(c, e);
    Out(o.core, o.cmds + Announce(c.state, o.core))
  }
}
