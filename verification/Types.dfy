/** The vocabulary of the daemon: states, timers, events, commands and the
    parts of the configuration that decide anything.

    Durations and instants are whole nanoseconds. Names, hooks and reasons are
    strings that nothing but equality looks at. */
module Types {

  datatype Option<+T> = None | Some(value: T)

  datatype Result<+T, +E> = Ok(value: T) | Err(error: E)

  function Min(a: int, b: int): int {
    if a <= b then a else b
  }

  function Max(a: int, b: int): int {
    if a <= b then b else a
  }

  function Abs(a: int): int {
    if a < 0 then -a else a
  }

  lemma Scale(a: int, b: int, c: int)
    ensures a <= b && 0 <= c ==> a * c <= b * c
  {
  }

  type Duration = nat
  type Instant = int
  type Device = string

  const SECOND: nat := 1_000_000_000

  // ---------------------------------------------------------------- states

  datatype Phase = Grace | Armed | Asleep | Checking

  /** `Sleeping` is the ordinary suspend; `LongSleep` is the server cycle. */
  datatype State = Active | Dimmed | ScreenOff | Suspending | Sleeping | LongSleep(phase: Phase)
  {
    /** The user is away but the machine is still running. */
    predicate IsAwake() {
      Active? || Dimmed? || ScreenOff?
    }

    /** The phases in which the idle stages are off and an alarm may be armed. */
    predicate PastGrace() {
      LongSleep? && !phase.Grace?
    }
  }

  datatype ModeSelection = Auto(name: string) | Manual(name: string)

  /** Absolute idle timeouts; `None` is a disabled stage. */
  datatype Stages = Stages(dim: Option<Duration>, screenOff: Option<Duration>, sleep: Option<Duration>)

  const NO_STAGES := Stages(None, None, None)

  datatype Stage = DimStage | ScreenOffStage | SleepStage

  /** A blocking inhibitor listed by logind. */
  datatype Inhibitor = Inhibitor(what: string, who: string, why: string)

  datatype InhibitWhat = InhibitIdle | InhibitSleep

  /** An inhibitor granted over IPC. */
  datatype Inhibit = Inhibit(id: nat, what: InhibitWhat, why: string, ttl: Duration)

  datatype TimerId = GraceTimer | SleepRetry | AwakeWindow | InhibitExpiry(id: nat)

  // ---------------------------------------------------------------- config

  datatype SleepMethod = Suspend | Hibernate | SuspendThenHibernate
  {
    predicate NeedsHibernate() {
      Hibernate? || SuspendThenHibernate?
    }
  }

  datatype CriticalAction = CriticalHibernate | CriticalPowerOff

  datatype ServerTrigger = AcLost | OnRequest

  /** The idle timeouts of a mode; zero means disabled. */
  datatype Mode = Mode(dimAfter: Duration, screenOffAfter: Duration, sleepAfter: Duration)

  datatype AutoMode = AutoMode(
    enabled: bool, onAc: string, onBattery: string, onLowBattery: string, lowBatteryPercent: nat)

  datatype SleepConfig = SleepConfig(how: SleepMethod, respectInhibitors: bool, retry: Duration)

  datatype Server = Server(
    enabled: bool, trigger: ServerTrigger, gracePeriod: Duration, checkInterval: Duration,
    awakeWindow: Duration, alarmSlack: Duration, criticalPercent: nat,
    criticalAction: CriticalAction, rtcDevice: Device, resumeHook: Option<string>)

  /** `[display]` is opaque: it is only stored, compared and forwarded. */
  datatype Display = Display(backend: string)

  /** `firstMode` is the least key of `modes`, or "" when there is none. */
  datatype Config = Config(
    modes: map<string, Mode>, firstMode: string, auto: AutoMode, dimPercent: nat,
    minPercent: nat, display: Display, sleep: SleepConfig, server: Server)

  const MAX_TIMEOUT: Duration := 24 * 60 * 60 * SECOND
  const MIN_CHECK_INTERVAL: Duration := 120 * SECOND
  const MAX_INHIBIT_TTL: Duration := 24 * 60 * 60 * SECOND
  const MAX_SLEEP_FAILURES: nat := 3

  datatype ConfigError =
    | TimeoutTooLong | TimeoutsOutOfOrder | BadMode | NoSuchAutoMode | PercentOutOfRange
    | CheckIntervalTooShort | SlackTooLong

  /** Only enabled (non-zero) timeouts take part in the ordering. */
  function ValidateMode(m: Mode): Result<(), ConfigError> {
    if m.dimAfter > MAX_TIMEOUT || m.screenOffAfter > MAX_TIMEOUT || m.sleepAfter > MAX_TIMEOUT then
      Err(TimeoutTooLong)
    else if m.dimAfter != 0 && m.screenOffAfter != 0 && m.dimAfter > m.screenOffAfter then
      Err(TimeoutsOutOfOrder)
    else if m.screenOffAfter != 0 && m.sleepAfter != 0 && m.screenOffAfter > m.sleepAfter then
      Err(TimeoutsOutOfOrder)
    else if m.screenOffAfter == 0 && m.dimAfter != 0 && m.sleepAfter != 0 && m.dimAfter > m.sleepAfter then
      Err(TimeoutsOutOfOrder)
    else
      Ok(())
  }

  function Validate(c: Config): Result<(), ConfigError> {
    if exists name | name in c.modes :: ValidateMode(c.modes[name]).Err? then
      Err(BadMode)
    else if c.auto.enabled && !({c.auto.onAc, c.auto.onBattery, c.auto.onLowBattery} <= c.modes.Keys) then
      Err(NoSuchAutoMode)
    else if c.auto.lowBatteryPercent > 100 || c.dimPercent > 100 || c.minPercent > 100 then
      Err(PercentOutOfRange)
    else if c.server.checkInterval < MIN_CHECK_INTERVAL then
      Err(CheckIntervalTooShort)
    else if c.server.criticalPercent > 100 then
      Err(PercentOutOfRange)
    else if c.server.alarmSlack >= c.server.checkInterval then
      Err(SlackTooLong)
    else
      Ok(())
  }

  // ------------------------------------------------------- events, commands

  type RequestId = nat

  datatype Request =
    | Status
    | Modes
    | SetMode(name: string)
    | RequestDim
    | RequestUndim
    | RequestScreen(on: bool)
    | RequestSleep(force: bool)
    | RequestLongSleep(cancel: bool)
    | AddInhibit(what: InhibitWhat, why: string, ttl: Duration)
    | Uninhibit(inhibit: nat)
    | RequestReload
    | Subscribe
    | Agent

  datatype Refusal =
    | InLongSleep | BlockedByInhibitors | NotInLongSleep | ServerNotEnabled | AlreadyInLongSleep
    | GoingToSleep | NoSuchMode | ZeroTtl | NoSuchInhibitor | NotForTheEngine | ConfigRejected

  datatype Response =
    | Done
    | StatusData(state: State)
    | ModesData(current: ModeSelection)
    | Inhibited(id: nat)
    | Refused(why: Refusal)

  datatype Event =
    | Idle(stage: Stage)
    | Activity
    | AcChanged(ac: bool)
    | Battery(percent: nat)
    | GoingDown                              // PrepareForSleep(true)
    | Resumed                                // PrepareForSleep(false)
    | ResumedByUser                          // the same, in the cycle and not the alarm
    | TimerFired(timer: TimerId)
    | Ipc(id: RequestId, request: Request)
    | IdleBackendChanged(connected: bool)
    | HibernateAvailable(available: bool)
    | Inhibitors(list: seq<Inhibitor>)
    | SleepBlocked(list: seq<Inhibitor>)
    | SleepFailed
    | WakeScheduled(armed: bool)
    | ReloadRequested
    | ShutdownRequested

  /** The phase a `LongSleep` broadcast names. */
  datatype PhaseLabel = InPhase(phase: Phase) | Critical | Interrupted | NotRunning

  datatype StateEvent =
    | StateChange(from: State, to: State)
    | PhaseChange(phaseLabel: PhaseLabel)
    | ModeChange(name: string)
    | PowerChange(ac: bool)

  datatype Command =
    | Dim(percent: nat)
    | Undim
    | Screen(on: bool)
    | ApplyMode(name: string)
    | ReplaceIdleStages(stages: Stages)
    | GoToSleep(how: SleepMethod, force: bool)
    | PowerOff
    | ScheduleWake(after: Duration)
    | CancelWake
    | RunHook(hook: string)
    | StartTimer(timer: TimerId, duration: Duration)
    | CancelTimer(timer: TimerId)
    | Reply(id: RequestId, response: Response)
    | Broadcast(event: StateEvent)
    | Reload(replyTo: Option<RequestId>)
    | Shutdown
}
