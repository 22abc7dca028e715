/** When the engine may send which command. `Licensed` is the whole list, kind
    by kind, in terms of the state before, the event and the fields after;
    `EveryCommandLicensed` proves it for every event. The rest counts: failed
    attempts of the cycle, and the work a command can still cause. */
module Discipline {
  import opened Types
  import opened Transition

  /** AC is off and the battery at or below the critical level of the cycle. */
  predicate OutOfPower(c: Core) {
    !c.ac && c.battery.Some? && c.battery.value <= c.config.server.criticalPercent
  }

  /** Inhibitors are respected, and logind lists one or a client holds one
      against sleep. */
  predicate Hindered(c: Core) {
    c.config.sleep.respectInhibitors && (|c.external| > 0 || Holds(c.inhibits, InhibitSleep))
  }

  predicate Holds(inhibits: seq<Inhibit>, what: InhibitWhat) {
    exists k :: 0 <= k < |inhibits| && inhibits[k].what == what
  }

  /** The tests in the code are these conditions. */
  lemma Conditions(c: Core)
    ensures Blocked(c) <==> Hindered(c)
    ensures IdleInhibited(c) <==> Holds(c.inhibits, InhibitIdle)
    ensures !c.ac && BatteryCritical(c) <==> OutOfPower(c)
  {
    forall i | i in c.inhibits ensures Holds(c.inhibits, i.what) {
      var k :| 0 <= k < |c.inhibits| && c.inhibits[k] == i;
    }
    forall k | 0 <= k < |c.inhibits| ensures c.inhibits[k] in c.inhibits {
    }
  }

  lemma HinderedDepends(c: Core, d: Core)
    requires c.config == d.config && c.external == d.external && c.inhibits == d.inhibits
    ensures Hindered(c) <==> Hindered(d)
  {
  }

  predicate MayDim(from: State, c: Core, percent: nat) {
    from == Active && c.state == Dimmed && percent == c.config.dimPercent
  }

  /** A critical action is only ever taken on the way back to `Checking`, on a
      wake by the alarm or at the end of a window. */
  predicate MayAct(from: State, e: Event, c: Core) {
    && c.state == LongSleep(Checking) && from.LongSleep? && OutOfPower(c)
    && (e == Resumed || e == TimerFired(AwakeWindow))
  }

  /** What can ask for a suspend outside the cycle: an idle user, a client, or
      the retry of a refused one. */
  predicate MayAsk(from: State, e: Event, force: bool) {
    match e
    case Idle(stage) => stage == SleepStage && from.IsAwake() && !force
    case Ipc(_, request) => request == RequestSleep(force)
    case TimerFired(id) => id == SleepRetry && !force
    case _ => false
  }

  predicate MaySleep(from: State, e: Event, c: Core, how: SleepMethod, force: bool) {
    if c.state.LongSleep? then
      if force then MayAct(from, e, c) && how == Hibernate && c.hibernateAvailable
      else from == c.state == LongSleep(Armed) && e == WakeScheduled(true) && !c.ac && !Hindered(c) && how == c.config.sleep.how
    else
      && c.state == Suspending && !from.LongSleep? && c.suspendFrom == from && how == c.config.sleep.how
      && MayAsk(from, e, force) && (!force ==> !Hindered(c))
  }

  predicate MayStart(from: State, e: Event, c: Core, id: TimerId, d: Duration) {
    match id
    case GraceTimer =>
      && from.IsAwake() && c.state == LongSleep(Grace)
      && (if e == AcChanged(false) then d == c.config.server.gracePeriod
          else e.Ipc? && e.request == RequestLongSleep(false) && d == 0)
    case SleepRetry =>
      && c.pendingSleep && !c.state.LongSleep? && d == c.config.sleep.retry > 0
      && (if e.SleepBlocked? then from == Suspending && c.external == e.list else Hindered(c))
    case AwakeWindow =>
      && (c.state == LongSleep(Checking) || (from == c.state == LongSleep(Armed))) && d == c.config.server.awakeWindow
    case InhibitExpiry(i) =>
      && e.Ipc? && e.request.AddInhibit? && HasInhibit(c.inhibits, i) && i + 1 == c.nextInhibitId
      && d == Min(e.request.ttl, MAX_INHIBIT_TTL) && d > 0
  }

  predicate Licensed(from: State, e: Event, c: Core, cmd: Command) {
    match cmd
    case Dim(percent) => MayDim(from, c, percent)
    case Undim => c.state == Active
    case Screen(on) => if on then c.state == Active else c.state == ScreenOff && (from == Active || from == Dimmed)
    case ApplyMode(name) => name == c.mode.name != ""
    case ReplaceIdleStages(s) => s == WantedStages(c)
    case GoToSleep(how, force) => MaySleep(from, e, c, how, force)
    case PowerOff => MayAct(from, e, c) && (c.config.server.criticalAction == CriticalPowerOff || !c.hibernateAvailable)
    case ScheduleWake(after) =>
      && from.LongSleep? && c.state == LongSleep(Armed) && after == c.config.server.checkInterval
      && (e == TimerFired(AwakeWindow) || (e == TimerFired(GraceTimer) && from.phase == Grace))
    case CancelWake => from.LongSleep? && c.state == Active
    case RunHook(hook) => from.LongSleep? && c.state == Active && c.ac && c.config.server.resumeHook == Some(hook)
    case StartTimer(id, d) => MayStart(from, e, c, id, d)
    case CancelTimer(id) => id == SleepRetry ==> !c.pendingSleep
    case Reply(id, _) => e.Ipc? && e.id == id
    case Broadcast(StateChange(a, b)) => a == from && b == c.state && a != b
    case Broadcast(PhaseChange(what)) => what == Critical ==> MayAct(from, e, c)
    case Broadcast(ModeChange(name)) => name == c.mode.name
    case Broadcast(PowerChange(ac)) => e == AcChanged(ac) && c.ac == ac
    case Reload(replyTo) =>
      if e.Ipc? then e.request == RequestReload && replyTo == Some(e.id) else e == ReloadRequested && replyTo == None
    case Shutdown => e == ShutdownRequested
  }

  ghost predicate AllLicensed(from: State, e: Event, o: Out) {
    forall cmd :: cmd in o.cmds ==> Licensed(from, e, o.core, cmd)
  }

  // ---------------------------------------------------- pieces of handlers

  lemma SelectModeOnly(c: Core)
    ensures SelectAutoMode(c).0 == c.(mode := SelectAutoMode(c).0.mode)
  {
  }

  lemma ModeCommandsAre(c: Core)
    ensures forall cmd :: cmd in ModeCommands(c) ==>
              (c.mode.name != "" && cmd == ApplyMode(c.mode.name)) || cmd == ReplaceIdleStages(WantedStages(c))
  {
  }

  lemma ReapplyLicensed(from: State, e: Event, c: Core)
    ensures AllLicensed(from, e, ReapplyAutoMode(c))
    ensures ReapplyAutoMode(c).core == c.(mode := ReapplyAutoMode(c).core.mode)
  {
    hide ModeCommands, SelectAutoMode, WantedStages;
    SelectModeOnly(c);
    ModeCommandsAre(SelectAutoMode(c).0);
  }

  lemma LeaveCycleLicensed(from: State, e: Event, c: Core)
    requires from.LongSleep?
    ensures AllLicensed(from, e, LeaveCycle(c))
    ensures LeaveCycle(c).core == c.(state := Active, mode := LeaveCycle(c).core.mode)
  {
    hide ModeCommands, SelectAutoMode, WantedStages;
    SelectModeOnly(c.(state := Active));
    ModeCommandsAre(LeaveCycle(c).core);
  }

  lemma PowerIsBackLicensed(from: State, e: Event, c: Core)
    requires from.LongSleep? && c.ac
    ensures AllLicensed(from, e, PowerIsBack(c))
    ensures PowerIsBack(c).core == LeaveCycle(c).core
  {
    hide LeaveCycle, WantedStages;
    LeaveCycleLicensed(from, e, c);
  }

  lemma CycleFailureLicensed(from: State, e: Event, c: Core)
    requires from == c.state == LongSleep(Armed)
    ensures AllLicensed(from, e, CycleFailure(c))
  {
    hide LeaveCycle, WantedStages;
    LeaveCycleLicensed(from, e, c.(sleepFailures := c.sleepFailures + 1));
  }

  lemma CheckPowerLicensed(from: State, e: Event, c: Core)
    requires from.LongSleep? && (OutOfPower(c) ==> e == Resumed || e == TimerFired(AwakeWindow))
    ensures AllLicensed(from, e, CheckPower(c))
  {
    hide PowerIsBack, WantedStages;
    if c.ac {
      PowerIsBackLicensed(from, e, c);
    }
  }

  lemma TrySleepLicensed(from: State, e: Event, c: Core, force: bool, armRetry: bool)
    requires from == c.state && !from.LongSleep? && !e.SleepBlocked?
    requires MayAsk(from, e, force)
    ensures AllLicensed(from, e, TrySleep(c, force, armRetry))
  {
    hide Blocked, Hindered, Licensed, ArmSleepRetry;
    Conditions(c);
    if !force && Hindered(c) {
      RetryLicensed(e, c);
    } else {
      RequestLicensed(e, c, force);
    }
  }

  lemma RetryLicensed(e: Event, c: Core)
    requires !c.state.LongSleep? && !e.SleepBlocked? && Hindered(c)
    ensures AllLicensed(c.state, e, ArmSleepRetry(c))
  {
    var d, retry := c.(pendingSleep := true), c.config.sleep.retry;
    assert Hindered(d) by { HinderedDepends(c, d); }
    hide Hindered;
    assert retry > 0 ==> Licensed(c.state, e, d, StartTimer(SleepRetry, retry));
    hide Licensed;
  }

  lemma RequestLicensed(e: Event, c: Core, force: bool)
    requires !c.state.LongSleep? && MayAsk(c.state, e, force) && (force || !Hindered(c))
    ensures var d := c.(suspendFrom := c.state, state := Suspending, pendingSleep := false);
            AllLicensed(c.state, e, Out(d, [GoToSleep(c.config.sleep.how, force)]))
  {
    hide Hindered, MayAsk;
    HinderedDepends(c, c.(suspendFrom := c.state, state := Suspending, pendingSleep := false));
  }

  lemma EnterGraceLicensed(from: State, e: Event, c: Core, delay: Duration)
    requires from.IsAwake()
    requires if e == AcChanged(false) then delay == c.config.server.gracePeriod
             else e.Ipc? && e.request == RequestLongSleep(false) && delay == 0
    ensures AllLicensed(from, e, EnterGrace(c, delay))
  {
    hide WantedStages;
  }

  lemma ActivityOutsideSends(c: Core)
    requires c.state != LongSleep(Armed) && c.state != LongSleep(Checking)
    ensures forall cmd :: cmd in OnActivity(c).cmds ==>
              cmd == CancelTimer(SleepRetry) || ((cmd == Undim || cmd == Screen(true)) && OnActivity(c).core.state == Active)
    ensures !OnActivity(c).core.pendingSleep
  {
    var o := CancelPendingSleep(c);
    assert forall cmd :: cmd in o.cmds ==> cmd == CancelTimer(SleepRetry);
    hide CancelPendingSleep, CycleFailure, LeaveCycle;
  }

  lemma ActivityOutsideLicensed(e: Event, c: Core)
    requires c.state != LongSleep(Armed) && c.state != LongSleep(Checking)
    ensures AllLicensed(c.state, e, OnActivity(c))
  {
    hide OnActivity;
    ActivityOutsideSends(c);
  }

  lemma ActivityLicensed(e: Event, c: Core)
    ensures AllLicensed(c.state, e, OnActivity(c))
  {
    hide LeaveCycle, CycleFailure, WantedStages;
    var c' := c.(pendingSleep := false);
    if c.state == LongSleep(Armed) {
      CycleFailureLicensed(c.state, e, c');
      CycleFailurePending(c');
    } else if c.state == LongSleep(Checking) {
      LeaveCycleLicensed(c.state, e, c'.(interrupted := true));
    } else {
      ActivityOutsideLicensed(e, c);
    }
  }

  lemma CycleFailurePending(c: Core)
    ensures CycleFailure(c).core.pendingSleep == c.pendingSleep
  {
    LeaveCycleLicensed(LongSleep(Armed), Activity, c.(sleepFailures := c.sleepFailures + 1));
  }

  /** What the engine needs to keep its discipline: no retry pending in
      the cycle, and no way back into it from a refused suspend. */
  ghost predicate NoRetryInCycle(c: Core) {
    (c.state.LongSleep? ==> !c.pendingSleep) && !c.suspendFrom.LongSleep?
  }

  // ---------------------------------------------------------------- events

  lemma TimerLicensed(c: Core, id: TimerId)
    requires NoRetryInCycle(c)
    ensures AllLicensed(c.state, TimerFired(id), OnTimer(c, id))
  {
    hide CheckPower, PowerIsBack, WantedStages, TrySleep;
    var e := TimerFired(id);
    match id
    case SleepRetry =>
      if c.pendingSleep && !c.state.LongSleep? {
        TrySleepLicensed(c.state, e, c.(pendingSleep := false), false, true);
      }
    case InhibitExpiry(_) =>
    case GraceTimer =>
      assert WantedStages(Arm(c, true).core) == NO_STAGES by { ArmedStages(Arm(c, true).core); }
    case AwakeWindow =>
      if c.state.LongSleep? {
        CheckPowerLicensed(c.state, e, c);
        if c.ac {
          PowerIsBackLicensed(c.state, e, c);
        }
      }
  }

  lemma ArmedStages(c: Core)
    requires c.state == LongSleep(Armed)
    ensures WantedStages(c) == NO_STAGES
  {
  }

  lemma AcLicensed(c: Core, ac: bool)
    ensures AllLicensed(c.state, AcChanged(ac), OnAcChanged(c, ac))
  {
    hide PowerIsBack, ReapplyAutoMode, WantedStages, EnterGrace;
    var e := AcChanged(ac);
    var c' := c.(ac := ac);
    if c.ac != ac {
      ReapplyLicensed(c.state, e, c'.(state := Active));
      ReapplyLicensed(c.state, e, c');
      if c.state == LongSleep(Checking) && ac {
        PowerIsBackLicensed(c.state, e, c');
        assert PowerIsBack(c').core.ac by { LeaveCycleLicensed(c.state, e, c'); }
      } else if c.state != LongSleep(Grace) || !ac {
        PowerMovesLicensed(c, ac);
      }
    }
  }

  lemma PowerMovesLicensed(c: Core, ac: bool)
    requires c.ac != ac && !(ac && (c.state == LongSleep(Grace) || c.state == LongSleep(Checking)))
    ensures AllLicensed(c.state, AcChanged(ac), OnAcChanged(c, ac))
  {
    hide PowerIsBack, ReapplyAutoMode, WantedStages, EnterGrace;
    var c' := c.(ac := ac);
    ReapplyLicensed(c.state, AcChanged(ac), c');
    if !ac && c.state.IsAwake() && c.config.server.enabled && c.config.server.trigger == AcLost {
      GraceAfterReapply(c, ReapplyAutoMode(c'));
    }
  }

  /** The mode commands sent on the way into Grace fit the state after it too. */
  lemma GraceAfterReapply(c: Core, o: Out)
    requires o == ReapplyAutoMode(c.(ac := false)) && c.state.IsAwake()
    ensures var g := EnterGrace(o.core, c.config.server.gracePeriod);
            AllLicensed(c.state, AcChanged(false), Out(g.core, o.cmds + g.cmds)) && !g.core.ac
  {
    hide ModeCommands, SelectAutoMode, CurrentStages;
    var c' := c.(ac := false);
    SelectModeOnly(c');
    ModeCommandsAre(SelectAutoMode(c').0);
    EnterGraceLicensed(c.state, AcChanged(false), o.core, c.config.server.gracePeriod);
    SameCurrentStages(o.core, EnterGrace(o.core, c.config.server.gracePeriod).core);
  }

  lemma SameCurrentStages(c: Core, d: Core)
    requires c.config == d.config && c.mode == d.mode
    ensures CurrentStages(c) == CurrentStages(d)
  {
  }

  lemma IpcLicensed(c: Core, id: RequestId, request: Request)
    ensures AllLicensed(c.state, Ipc(id, request), OnIpc(c, id, request))
  {
    hide OnActivity, OnSetMode, OnLongSleep, OnInhibit, OnRequestSleep, WantedStages, TrySleep, LeaveCycle;
    var e := Ipc(id, request);
    match request
    case SetMode(name) => SetModeLicensed(c, id, name);
    case RequestUndim => ActivityLicensed(e, c);
    case RequestScreen(_) => ActivityLicensed(e, c);
    case RequestSleep(force) => SleepRequestLicensed(c, id, force);
    case RequestLongSleep(cancel) => LongSleepRequestLicensed(c, id, cancel);
    case AddInhibit(what, why, ttl) => InhibitLicensed(c, id, what, why, ttl);
    case _ =>
  }

  lemma SetModeLicensed(c: Core, id: RequestId, name: string)
    ensures AllLicensed(c.state, Ipc(id, SetMode(name)), OnSetMode(c, id, name))
  {
    hide ModeCommands, WantedStages, AutoModeName;
    ModeCommandsAre(OnSetMode(c, id, name).core);
  }

  lemma SleepRequestLicensed(c: Core, id: RequestId, force: bool)
    ensures AllLicensed(c.state, Ipc(id, RequestSleep(force)), OnRequestSleep(c, id, force))
  {
    hide WantedStages, TrySleep, Blocked;
    if !c.state.LongSleep? {
      TrySleepLicensed(c.state, Ipc(id, RequestSleep(force)), c, force, false);
    }
  }

  lemma LongSleepRequestLicensed(c: Core, id: RequestId, cancel: bool)
    ensures AllLicensed(c.state, Ipc(id, RequestLongSleep(cancel)), OnLongSleep(c, id, cancel))
  {
    hide WantedStages, LeaveCycle, EnterGrace;
    var e := Ipc(id, RequestLongSleep(cancel));
    if cancel && c.state.LongSleep? {
      LeaveCycleLicensed(c.state, e, c.(interrupted := false));
    } else if !cancel && c.state.IsAwake() {
      EnterGraceLicensed(c.state, e, c, 0);
    }
  }

  lemma InhibitLicensed(c: Core, id: RequestId, what: InhibitWhat, why: string, ttl: Duration)
    ensures AllLicensed(c.state, Ipc(id, AddInhibit(what, why, ttl)), OnInhibit(c, id, what, why, ttl))
  {
    hide WantedStages;
    var i := Inhibit(c.nextInhibitId, what, why, Min(ttl, MAX_INHIBIT_TTL));
    assert i in c.inhibits + [i];
  }

  lemma IdleLicensed(c: Core, stage: Stage)
    ensures AllLicensed(c.state, Idle(stage), OnIdle(c, stage))
  {
    hide TrySleep, WantedStages, IdleInhibited;
    if c.state.IsAwake() && stage == SleepStage {
      TrySleepLicensed(c.state, Idle(stage), c, false, true);
    }
  }

  lemma BlockedLicensed(c: Core, list: seq<Inhibitor>)
    requires NoRetryInCycle(c)
    ensures AllLicensed(c.state, SleepBlocked(list), OnSleepBlocked(c, list))
  {
    hide CycleFailure, WantedStages;
    if c.state == LongSleep(Armed) {
      CycleFailureLicensed(c.state, SleepBlocked(list), c.(external := list));
    }
  }

  lemma FailedLicensed(c: Core)
    ensures AllLicensed(c.state, SleepFailed, OnSleepFailed(c))
  {
    hide CycleFailure, OnActivity, Licensed;
    ActivityLicensed(SleepFailed, c);
    if c.state == LongSleep(Armed) {
      CycleFailureLicensed(c.state, SleepFailed, c);
    }
  }

  lemma BatteryLicensed(c: Core, percent: nat)
    ensures AllLicensed(c.state, Battery(percent), OnBattery(c, percent))
  {
    hide Licensed, ReapplyAutoMode, ComputeLow;
    ReapplyLicensed(c.state, Battery(percent), OnBatteryReading(c, percent));
  }

  lemma ShutdownLicensed(c: Core)
    ensures AllLicensed(c.state, ShutdownRequested, OnShutdown(c))
  {
    hide MaySleep, MayStart, MayAct, MayDim, WantedStages;
  }

  lemma ReloadLicensed(c: Core)
    ensures AllLicensed(c.state, ReloadRequested, Out(c, [Reload(None)]))
  {
  }

  lemma DispatchLicensed(c: Core, e: Event)
    requires NoRetryInCycle(c)
    ensures AllLicensed(c.state, e, Dispatch(c, e))
  {
    hide Licensed, OnActivity, OnAcChanged, OnTimer, OnIpc, OnIdle, OnBattery, OnResumed, OnSleepBlocked,
         OnSleepFailed, OnWakeScheduled, OnShutdown, NoRetryInCycle;
    match e
    case Idle(stage) => IdleLicensed(c, stage);
    case Activity => ActivityLicensed(e, c);
    case AcChanged(ac) => AcLicensed(c, ac);
    case Battery(percent) => BatteryLicensed(c, percent);
    case Resumed => ResumedLicensed(c, false);
    case ResumedByUser => ResumedLicensed(c, true);
    case TimerFired(id) => TimerLicensed(c, id);
    case Ipc(id, request) => IpcLicensed(c, id, request);
    case SleepBlocked(list) => BlockedLicensed(c, list);
    case SleepFailed => FailedLicensed(c);
    case WakeScheduled(armed) => WakeScheduledLicensed(c, armed);
    case ReloadRequested => ReloadLicensed(c);
    case ShutdownRequested => ShutdownLicensed(c);
    case _ =>
  }

  function OnBatteryReading(c: Core, percent: nat): Core {
    c.(battery := Some(percent), low := ComputeLow(c.config.auto.lowBatteryPercent, c.low, Some(percent)))
  }

  lemma WakeScheduledLicensed(c: Core, armed: bool)
    ensures AllLicensed(c.state, WakeScheduled(armed), OnWakeScheduled(c, armed))
  {
    hide WantedStages, CycleFailure, PowerIsBack, Blocked, Hindered;
    Conditions(c);
    if c.state == LongSleep(Armed) {
      CycleFailureLicensed(c.state, WakeScheduled(armed), c);
      if c.ac {
        PowerIsBackLicensed(c.state, WakeScheduled(armed), c);
      }
    }
  }

  /** A wake that was the user's never takes the critical action. */
  lemma ResumedLicensed(c: Core, byUser: bool)
    ensures AllLicensed(c.state, if byUser then ResumedByUser else Resumed, OnResumed(c, byUser))
  {
    hide CheckPower, LeaveCycle, PowerIsBack, CurrentStages;
    var e := if byUser then ResumedByUser else Resumed;
    var c' := c.(pendingSleep := false);
    if c.state.LongSleep? {
      LeaveCycleLicensed(c.state, e, c'.(interrupted := true));
      if !byUser || c.ac {
        CheckPowerLicensed(c.state, e, c');
      }
    }
  }

  /** Every command of every event is licensed. */
  lemma EveryCommandLicensed(c: Core, e: Event)
    requires NoRetryInCycle(c)
    ensures AllLicensed(c.state, e, Handle(c, e))
  {
    hide Dispatch, WantedStages;
    DispatchLicensed(c, e);
  }

  // ------------------------------------------------- what follows from it

  /** The critical action leaves the window running, so that one that does not
      happen is tried again. */
  lemma CriticalActionRetries(c: Core, e: Event, cmd: Command)
    requires NoRetryInCycle(c) && cmd in Handle(c, e).cmds
    requires cmd == PowerOff || (cmd.GoToSleep? && cmd.force && c.state.LongSleep?)
    ensures StartTimer(AwakeWindow, c.config.server.awakeWindow) in Handle(c, e).cmds
    ensures OutOfPower(c) && (e == Resumed || e == TimerFired(AwakeWindow))
  {
    hide Dispatch, Announce;
    EveryCommandLicensed(c, e);
    assert Licensed(c.state, e, Handle(c, e).core, cmd);
    assert e == Resumed || e == TimerFired(AwakeWindow);
    BackToChecking(c, e);
  }

  ghost predicate FreshWindow(c: Core, o: Out) {
    o.core.state == LongSleep(Checking) ==>
      && StartTimer(AwakeWindow, c.config.server.awakeWindow) in o.cmds
      && o.core.ac == c.ac && o.core.battery == c.battery && o.core.config == c.config
  }

  lemma ResumedToChecking(c: Core)
    ensures FreshWindow(c, OnResumed(c, false))
  {
    hide CheckPower;
    CheckPowerAgain(c.(pendingSleep := false));
  }

  lemma WindowToChecking(c: Core)
    ensures FreshWindow(c, OnTimer(c, AwakeWindow))
  {
    hide CheckPower, PowerIsBack, BatteryCritical;
    if c.state == LongSleep(Checking) && (c.ac || BatteryCritical(c)) {
      CheckPowerAgain(c);
      assert OnTimer(c, AwakeWindow) == CheckPower(c);
    } else {
      LeavesToActive(c);
      assert OnTimer(c, AwakeWindow).core.state != LongSleep(Checking) || OnTimer(c, AwakeWindow) == Out(c, []);
    }
  }

  /** `Checking` is entered, and entered again, with a fresh window. */
  lemma BackToChecking(c: Core, e: Event)
    requires e == Resumed || e == TimerFired(AwakeWindow)
    ensures FreshWindow(c, Dispatch(c, e))
  {
    hide OnResumed, OnTimer, FreshWindow;
    ResumedToChecking(c);
    WindowToChecking(c);
  }

  lemma LeavesToActive(c: Core)
    ensures PowerIsBack(c).core.state == Active && LeaveCycle(c).core.state == Active
  {
    hide SelectAutoMode;
    SelectModeOnly(c.(state := Active));
  }

  lemma CheckPowerAgain(c: Core)
    ensures c.ac ==> CheckPower(c).core.state == Active
    ensures !c.ac ==> StartTimer(AwakeWindow, c.config.server.awakeWindow) in CheckPower(c).cmds
    ensures CheckPower(c).core.ac == c.ac && CheckPower(c).core.battery == c.battery && CheckPower(c).core.config == c.config
  {
    hide LeaveCycle, Critically;
    LeaveCycleLicensed(LongSleep(Checking), Resumed, c);
  }

  // ---------------------------------------------------- the failure counter

  /** The events that, in `Armed`, mean the attempt did not end in a suspend. */
  predicate AttemptFailed(c: Core, e: Event) {
    match e
    case SleepBlocked(_) | SleepFailed | Activity => true
    case WakeScheduled(armed) => !armed || (!c.ac && Hindered(c))
    case Ipc(_, request) => request == RequestUndim || request == RequestScreen(true)
    case _ => false
  }

  /** An independent count of the failed attempts in a row, from the outside:
      states and events only. */
  function CountFailures(c: Core, e: Event, next: State, count: nat): nat {
    if !c.state.LongSleep? && next.LongSleep? then 0
    else if c.state.LongSleep? && e == GoingDown then 0
    else if c.state == LongSleep(Armed) && AttemptFailed(c, e) then count + 1
    else count
  }

  /** A failed attempt is counted or ends the cycle; nothing else changes the
      count in the cycle, and entering it starts from zero, in Grace. */
  ghost predicate Counts(c: Core, o: Out, failed: bool) {
    if failed then
      if c.sleepFailures + 1 >= MAX_SLEEP_FAILURES then o.core.state == Active
      else o.core.state == LongSleep(Armed) && o.core.sleepFailures == c.sleepFailures + 1
    else
      o.core.state.LongSleep? ==>
        if c.state.LongSleep? then o.core.sleepFailures == c.sleepFailures
        else o.core.sleepFailures == 0 && o.core.state == LongSleep(Grace)
  }

  lemma CycleFailureCounts(c: Core)
    requires c.state == LongSleep(Armed)
    ensures Counts(c, CycleFailure(c), true)
  {
    hide LeaveCycle;
    LeavesToActive(c.(sleepFailures := c.sleepFailures + 1));
  }

  lemma ActivityCounts(c: Core)
    ensures Counts(c, OnActivity(c), c.state == LongSleep(Armed))
  {
    hide CycleFailure, LeaveCycle;
    if c.state == LongSleep(Armed) {
      CycleFailureCounts(c.(pendingSleep := false));
    }
    LeavesToActive(c.(pendingSleep := false, interrupted := true));
  }

  lemma TimerCounts(c: Core, id: TimerId)
    ensures Counts(c, OnTimer(c, id), false)
  {
    hide CheckPower, PowerIsBack, TrySleep, RemoveInhibit, BatteryCritical;
    LeavesToActive(c);
    if c.state.LongSleep? {
      CheckPowerCounts(c);
    }
    TrySleepCounts(c.(pendingSleep := false), false, true);
  }

  lemma CheckPowerCounts(c: Core)
    requires c.state.LongSleep?
    ensures Counts(c, CheckPower(c), false)
  {
    hide PowerIsBack, Critically;
    LeavesToActive(c);
  }

  lemma TrySleepCounts(c: Core, force: bool, armRetry: bool)
    ensures TrySleep(c, force, armRetry).core.sleepFailures == c.sleepFailures
    ensures TrySleep(c, force, armRetry).core.state.LongSleep? ==> TrySleep(c, force, armRetry).core.state == c.state
  {
    hide Blocked;
  }

  lemma ResumedCounts(c: Core, byUser: bool)
    ensures Counts(c, OnResumed(c, byUser), false)
  {
    hide CheckPower, LeaveCycle;
    if c.state.LongSleep? {
      CheckPowerCounts(c.(pendingSleep := false));
    }
    LeavesToActive(c.(pendingSleep := false, interrupted := true));
  }

  lemma EnterGraceCounts(c: Core, delay: Duration)
    ensures var d := EnterGrace(c, delay).core; d.state == LongSleep(Grace) && d.sleepFailures == 0
  {
  }

  lemma AcCounts(c: Core, ac: bool)
    ensures Counts(c, OnAcChanged(c, ac), false)
  {
    hide PowerIsBack, ReapplyAutoMode, EnterGrace;
    var c' := c.(ac := ac);
    if c.ac != ac {
      if ac && c.state == LongSleep(Grace) {
        ReapplyLicensed(c.state, AcChanged(ac), c'.(state := Active));
      } else if ac && c.state == LongSleep(Checking) {
        LeavesToActive(c');
      } else {
        ReapplyLicensed(c.state, AcChanged(ac), c');
        EnterGraceCounts(ReapplyAutoMode(c').core, c.config.server.gracePeriod);
      }
    }
  }

  lemma BatteryCounts(c: Core, percent: nat)
    ensures Counts(c, OnBattery(c, percent), false)
  {
    hide ReapplyAutoMode, ComputeLow;
    ReapplyLicensed(c.state, Battery(percent), OnBatteryReading(c, percent));
  }

  lemma LongSleepRequestCounts(c: Core, id: RequestId, cancel: bool)
    ensures Counts(c, OnLongSleep(c, id, cancel), false)
  {
    hide LeaveCycle, EnterGrace;
    EnterGraceCounts(c, 0);
    LeavesToActive(c.(interrupted := false));
  }

  lemma SleepRequestCounts(c: Core, id: RequestId, force: bool)
    ensures Counts(c, OnRequestSleep(c, id, force), false)
  {
    hide TrySleep, Blocked;
    TrySleepCounts(c, force, false);
  }

  lemma InhibitCounts(c: Core, id: RequestId, what: InhibitWhat, why: string, ttl: Duration)
    ensures Counts(c, OnInhibit(c, id, what, why, ttl), false)
  {
  }

  lemma UninhibitCounts(c: Core, id: RequestId, inhibit: nat)
    ensures Counts(c, OnUninhibit(c, id, inhibit), false)
  {
    hide RemoveInhibit, HasInhibit;
  }

  lemma SetModeCounts(c: Core, id: RequestId, name: string)
    ensures Counts(c, OnSetMode(c, id, name), false)
  {
    hide ModeChanged, AutoModeName;
  }

  lemma IpcCounts(c: Core, id: RequestId, request: Request)
    ensures Counts(c, OnIpc(c, id, request), c.state == LongSleep(Armed) && AttemptFailed(c, Ipc(id, request)))
  {
    hide OnActivity, OnLongSleep, OnRequestSleep, OnInhibit, OnUninhibit, OnSetMode, Blocked;
    match request
    case RequestUndim => ActivityCounts(c);
    case RequestScreen(on) => ActivityCounts(c);
    case RequestLongSleep(cancel) => LongSleepRequestCounts(c, id, cancel);
    case RequestSleep(force) => SleepRequestCounts(c, id, force);
    case AddInhibit(what, why, ttl) => InhibitCounts(c, id, what, why, ttl);
    case Uninhibit(inhibit) => UninhibitCounts(c, id, inhibit);
    case SetMode(name) => SetModeCounts(c, id, name);
    case _ =>
  }

  lemma WakeScheduledCounts(c: Core, armed: bool)
    ensures Counts(c, OnWakeScheduled(c, armed), c.state == LongSleep(Armed) && AttemptFailed(c, WakeScheduled(armed)))
  {
    hide CycleFailure, PowerIsBack, Blocked, Hindered;
    Conditions(c);
    LeavesToActive(c);
    if c.state == LongSleep(Armed) {
      CycleFailureCounts(c);
    }
  }

  lemma BlockedCounts(c: Core, list: seq<Inhibitor>)
    requires !c.suspendFrom.LongSleep?
    ensures Counts(c, OnSleepBlocked(c, list), c.state == LongSleep(Armed))
    ensures Counts(c, OnSleepFailed(c), c.state == LongSleep(Armed))
  {
    hide CycleFailure, OnActivity;
    if c.state == LongSleep(Armed) {
      CycleFailureCounts(c.(external := list));
      CycleFailureCounts(c);
    } else {
      ActivityCounts(c);
    }
  }

  lemma IdleCounts(c: Core, stage: Stage)
    ensures Counts(c, OnIdle(c, stage), false)
  {
    hide TrySleep, IdleInhibited;
    TrySleepCounts(c, false, true);
  }

  lemma DispatchCounts(c: Core, e: Event)
    requires !c.suspendFrom.LongSleep?
    ensures e == GoingDown || Counts(c, Dispatch(c, e), c.state == LongSleep(Armed) && AttemptFailed(c, e))
  {
    hide Counts, OnActivity, OnAcChanged, OnTimer, OnIpc, OnIdle, OnBattery, OnResumed, OnSleepBlocked, OnSleepFailed,
         OnWakeScheduled, Blocked;
    match e
    case Idle(stage) => IdleCounts(c, stage);
    case Activity => ActivityCounts(c);
    case AcChanged(ac) => AcCounts(c, ac);
    case Battery(percent) => BatteryCounts(c, percent);
    case GoingDown =>
    case Resumed => ResumedCounts(c, false);
    case ResumedByUser => ResumedCounts(c, true);
    case TimerFired(id) => TimerCounts(c, id);
    case Ipc(id, request) => IpcCounts(c, id, request);
    case SleepBlocked(list) => BlockedCounts(c, list);
    case SleepFailed => BlockedCounts(c, []);
    case WakeScheduled(armed) => WakeScheduledCounts(c, armed);
    case _ => QuietCounts(c, e);
  }

  lemma QuietCounts(c: Core, e: Event)
    requires e.IdleBackendChanged? || e.HibernateAvailable? || e.Inhibitors? || e == ReloadRequested || e == ShutdownRequested
    ensures Counts(c, Dispatch(c, e), false)
  {
  }

  /** In the cycle the engine's counter is exactly the number of attempts that
      failed in a row, it stays below three, and the third always ends it. */
  lemma FailuresExact(c: Core, e: Event, count: nat)
    requires c.state.LongSleep? ==> c.sleepFailures == count && count < MAX_SLEEP_FAILURES
    requires !c.suspendFrom.LongSleep?
    ensures var o := Handle(c, e);
            var next := CountFailures(c, e, o.core.state, count);
            && (o.core.state.LongSleep? ==> o.core.sleepFailures == next && next < MAX_SLEEP_FAILURES)
            && (c.state == LongSleep(Armed) && AttemptFailed(c, e) ==>
                  (o.core.state == Active <==> count == MAX_SLEEP_FAILURES - 1) && o.core.state in {Active, LongSleep(Armed)})
  {
    hide Dispatch, Announce, AttemptFailed;
    DispatchCounts(c, e);
    if e == GoingDown {
      GoingDownCounts(c);
    }
  }

  lemma GoingDownCounts(c: Core)
    ensures var d := Dispatch(c, GoingDown).core;
            if c.state.LongSleep? then d.state == LongSleep(Asleep) && d.sleepFailures == 0 else d.state == Sleeping
    ensures !AttemptFailed(c, GoingDown)
  {
  }

  // -------------------------------------------------- the work still to do

  /** What a command can still cause: itself, and whatever it makes the engine
      send. */
  function WeightOf(c: Command): nat {
    if c.ScheduleWake? then 24 else if c.GoToSleep? then 12 else if c.Reload? then 6 else 1
  }

  function Weight(q: seq<Command>): nat {
    if q == [] then 0 else WeightOf(q[0]) + Weight(q[1..])
  }

  lemma {:induction false} WeightConcat(a: seq<Command>, b: seq<Command>)
    ensures Weight(a + b) == Weight(a) + Weight(b)
  {
    if a == [] {
      assert a + b == b;
    } else {
      assert (a + b)[1..] == a[1..] + b;
      WeightConcat(a[1..], b);
    }
  }

  lemma WeightOne(c: Command)
    ensures Weight([c]) == WeightOf(c)
  {
    assert [c][1..] == [];
  }

  lemma Weights()
    ensures Weight([]) == 0
    ensures forall a, b {:trigger Weight(a + b)} :: Weight(a + b) == Weight(a) + Weight(b)
    ensures forall c {:trigger Weight([c])} :: Weight([c]) == WeightOf(c)
  {
    forall a, b {
      WeightConcat(a, b);
    }
    forall c {
      WeightOne(c);
    }
  }

  lemma ModeCommandsWeight(c: Core)
    ensures Weight(ModeCommands(c)) <= 2
  {
    hide Weight, WantedStages;
    Weights();
  }

  lemma LeaveCycleWeight(c: Core)
    ensures Weight(LeaveCycle(c).cmds) <= 6 && Weight(PowerIsBack(c).cmds) <= 7
  {
    hide Weight, ModeCommands, SelectAutoMode;
    ModeCommandsWeight(LeaveCycle(c).core);
    Weights();
  }

  lemma CycleFailureWeight(c: Core)
    ensures Weight(CycleFailure(c).cmds) <= 6
  {
    hide Weight, LeaveCycle;
    LeaveCycleWeight(c.(sleepFailures := c.sleepFailures + 1));
    Weights();
  }

  lemma ActivityWeight(c: Core)
    ensures Weight(OnActivity(c).cmds) <= 8
  {
    hide Weight, LeaveCycle, CycleFailure;
    LeaveCycleWeight(c.(pendingSleep := false, interrupted := true));
    CycleFailureWeight(c.(pendingSleep := false));
    Weights();
  }

  lemma AnnounceWeight(from: State, c: Core)
    ensures Weight(Announce(from, c)) <= 2
  {
    hide Weight;
    Weights();
  }

  /** What the three commands that re-enter the engine add to the queue weighs
      less than the command itself. */
  lemma ReentryShrinks(c: Core, armed: bool, config: Config, replyTo: Option<RequestId>)
    ensures Weight(Handle(c, SleepFailed).cmds) < WeightOf(GoToSleep(Suspend, false))
    ensures Weight(Handle(c, WakeScheduled(armed)).cmds) < WeightOf(ScheduleWake(0))
    ensures Weight(SetConfig(c, config).cmds) + 1 < WeightOf(Reload(replyTo))
  {
    hide Weight, OnActivity, CycleFailure, PowerIsBack, Announce, ModeCommands, Blocked;
    Weights();
    ActivityWeight(c);
    CycleFailureWeight(c);
    LeaveCycleWeight(c);
    AnnounceWeight(c.state, Dispatch(c, SleepFailed).core);
    AnnounceWeight(c.state, Dispatch(c, WakeScheduled(armed)).core);
    ModeCommandsWeight(SetConfig(c, config).core);
  }

  // ------------------------------------------ what the engine leaves alone

  ghost predicate SameWorld(c: Core, d: Core) {
    && d.config == c.config && d.ac == c.ac && d.battery == c.battery
    && d.hibernateAvailable == c.hibernateAvailable && d.nextInhibitId >= c.nextInhibitId
  }

  lemma LeaveCycleSame(c: Core)
    ensures SameWorld(c, LeaveCycle(c).core) && SameWorld(c, PowerIsBack(c).core)
    ensures SameWorld(c, CheckPower(c).core)
  {
    hide SelectAutoMode, ModeCommands, Critically;
    SelectModeOnly(c.(state := Active));
  }

  lemma CycleFailureSame(c: Core)
    ensures SameWorld(c, CycleFailure(c).core)
  {
    hide LeaveCycle;
    LeaveCycleSame(c.(sleepFailures := c.sleepFailures + 1));
  }

  lemma ActivitySame(c: Core)
    ensures SameWorld(c, OnActivity(c).core)
  {
    hide LeaveCycle, CycleFailure, SameWorld;
    var d := c.(pendingSleep := false);
    SameDepends(c, d);
    SameDepends(c, d.(interrupted := true));
    SameDepends(c, d.(state := Active));
    LeaveCycleSame(d.(interrupted := true));
    CycleFailureSame(d);
  }

  /** `SameWorld` looks at nothing a handler changes on its way. */
  lemma SameDepends(c: Core, d: Core)
    requires c.config == d.config && c.ac == d.ac && c.battery == d.battery
    requires c.hibernateAvailable == d.hibernateAvailable && c.nextInhibitId == d.nextInhibitId
    ensures SameWorld(c, d)
    ensures forall x {:trigger SameWorld(d, x)} :: SameWorld(d, x) ==> SameWorld(c, x)
  {
  }

  lemma TrySleepSame(c: Core, force: bool, armRetry: bool)
    ensures SameWorld(c, TrySleep(c, force, armRetry).core)
  {
    hide Blocked;
  }

  lemma WindowSame(c: Core)
    ensures SameWorld(c, OnTimer(c, AwakeWindow).core)
  {
    hide PowerIsBack, CheckPower, BatteryCritical, Arm;
    LeaveCycleSame(c);
    ArmSame(c);
  }

  lemma ArmSame(c: Core)
    ensures SameWorld(c, Arm(c, false).core)
  {
  }

  lemma TimerSame(c: Core, id: TimerId)
    ensures SameWorld(c, OnTimer(c, id).core)
  {
    hide TrySleep, PowerIsBack, CheckPower, RemoveInhibit, BatteryCritical;
    match id
    case SleepRetry => TrySleepSame(c.(pendingSleep := false), false, true);
    case AwakeWindow => WindowSame(c);
    case _ =>
  }

  lemma IdleSame(c: Core, stage: Stage)
    ensures SameWorld(c, OnIdle(c, stage).core)
  {
    hide TrySleep, IdleInhibited;
    TrySleepSame(c, false, true);
  }

  lemma ResumedSame(c: Core, byUser: bool)
    ensures SameWorld(c, OnResumed(c, byUser).core)
  {
    hide CheckPower, LeaveCycle, PowerIsBack;
    LeaveCycleSame(c.(pendingSleep := false));
    LeaveCycleSame(c.(pendingSleep := false, interrupted := true));
  }

  lemma AnswerSame(c: Core, list: seq<Inhibitor>, armed: bool)
    ensures SameWorld(c, OnSleepBlocked(c, list).core)
    ensures SameWorld(c, OnSleepFailed(c).core)
    ensures SameWorld(c, OnWakeScheduled(c, armed).core)
  {
    hide CycleFailure, OnActivity, PowerIsBack, Blocked, LeaveCycle, CheckPower;
    ActivitySame(c);
    CycleFailureSame(c);
    CycleFailureSame(c.(external := list));
    LeaveCycleSame(c);
  }

  lemma BatterySame(c: Core, percent: nat)
    ensures SameWorld(c.(battery := Some(percent)), OnBattery(c, percent).core)
  {
    hide ReapplyAutoMode, ComputeLow;
    ReapplyLicensed(c.state, Activity, OnBatteryReading(c, percent));
  }

  lemma QuietSame(c: Core, e: Event)
    requires e == GoingDown || e.IdleBackendChanged? || e.Inhibitors? || e == ReloadRequested || e == ShutdownRequested
    ensures SameWorld(c, Dispatch(c, e).core)
  {
  }

  lemma LongSleepRequestSame(c: Core, id: RequestId, cancel: bool)
    ensures SameWorld(c, OnLongSleep(c, id, cancel).core)
  {
    hide LeaveCycle, PowerIsBack, CheckPower;
    LeaveCycleSame(c.(interrupted := false));
  }

  lemma InhibitSame(c: Core, id: RequestId, what: InhibitWhat, why: string, ttl: Duration)
    ensures SameWorld(c, OnInhibit(c, id, what, why, ttl).core)
  {
  }

  lemma UninhibitSame(c: Core, id: RequestId, inhibit: nat)
    ensures SameWorld(c, OnUninhibit(c, id, inhibit).core)
  {
    hide RemoveInhibit, HasInhibit;
  }

  lemma SetModeSame(c: Core, id: RequestId, name: string)
    ensures SameWorld(c, OnSetMode(c, id, name).core)
  {
    hide ModeChanged, AutoModeName;
  }

  lemma SleepRequestSame(c: Core, id: RequestId, force: bool)
    ensures SameWorld(c, OnRequestSleep(c, id, force).core)
  {
    hide TrySleep, Blocked;
    TrySleepSame(c, force, false);
  }

  lemma IpcSame(c: Core, id: RequestId, request: Request)
    ensures SameWorld(c, OnIpc(c, id, request).core)
  {
    hide OnActivity, OnLongSleep, OnRequestSleep, OnInhibit, OnUninhibit, OnSetMode;
    match request
    case RequestUndim => ActivitySame(c);
    case RequestScreen(on) => ActivitySame(c);
    case RequestLongSleep(cancel) => LongSleepRequestSame(c, id, cancel);
    case RequestSleep(force) => SleepRequestSame(c, id, force);
    case AddInhibit(what, why, ttl) => InhibitSame(c, id, what, why, ttl);
    case Uninhibit(inhibit) => UninhibitSame(c, id, inhibit);
    case SetMode(name) => SetModeSame(c, id, name);
    case _ =>
  }

  lemma AcSame(c: Core, ac: bool)
    ensures SameWorld(c.(ac := ac), OnAcChanged(c, ac).core)
  {
    hide PowerIsBack, ReapplyAutoMode;
    var c' := c.(ac := ac);
    LeaveCycleSame(c');
    ReapplyLicensed(c.state, Activity, c');
    ReapplyLicensed(c.state, Activity, c'.(state := Active));
  }

  /** Power and the hibernate verdict move only with the events that carry them,
      the configuration not at all. */
  lemma HandleSame(c: Core, e: Event)
    ensures var d := Handle(c, e).core;
            match e
            case AcChanged(ac) => SameWorld(c.(ac := ac), d)
            case Battery(percent) => SameWorld(c.(battery := Some(percent)), d)
            case HibernateAvailable(a) => SameWorld(c.(hibernateAvailable := a), d)
            case _ => SameWorld(c, d)
  {
    hide Announce, SameWorld, OnActivity, OnAcChanged, OnTimer, OnIpc, OnIdle, OnBattery, OnResumed, OnSleepBlocked,
         OnSleepFailed, OnWakeScheduled;
    match e
    case Idle(stage) => IdleSame(c, stage);
    case Activity => ActivitySame(c);
    case AcChanged(ac) => AcSame(c, ac);
    case Battery(percent) => BatterySame(c, percent);
    case Resumed => ResumedSame(c, false);
    case ResumedByUser => ResumedSame(c, true);
    case TimerFired(id) => TimerSame(c, id);
    case Ipc(id, request) => IpcSame(c, id, request);
    case SleepBlocked(list) => AnswerSame(c, list, true);
    case SleepFailed => AnswerSame(c, [], true);
    case WakeScheduled(armed) => AnswerSame(c, [], armed);
    case HibernateAvailable(available) => VerdictSame(c, available);
    case _ => QuietSame(c, e);
  }

  lemma VerdictSame(c: Core, available: bool)
    ensures SameWorld(c.(hibernateAvailable := available), Dispatch(c, HibernateAvailable(available)).core)
  {
  }
}
