/** The engine as the object it is: fields updated in place, commands pushed
    onto a vector. Every method is proved to do exactly what its function in
    Transition.dfy says. */
module EngineObject {
  import opened Types
  import T = Transition

  class Engine {
    var config: Config
    var state: State
    var mode: ModeSelection
    var ac: bool
    var battery: Option<nat>
    var low: bool
    var inhibits: seq<Inhibit>
    var nextInhibitId: nat
    var external: seq<Inhibitor>
    var pendingSleep: bool
    var suspendFrom: State
    var idleConnected: bool
    var hibernateAvailable: bool
    var sleepFailures: nat
    var interrupted: bool

    function View(): T.Core
      reads this
    {
      T.Core(config, state, mode, ac, battery, low, inhibits, nextInhibitId, external, pendingSleep, suspendFrom,
             idleConnected, hibernateAvailable, sleepFailures, interrupted)
    }

    constructor (c: Config, onAc: bool, charge: Option<nat>)
      ensures View() == T.NewEngine(c, onAc, charge)
    {
      config, state, ac, battery := c, Active, onAc, charge;
      inhibits, nextInhibitId, external := [], 1, [];
      pendingSleep, suspendFrom, idleConnected, hibernateAvailable := false, Active, false, true;
      sleepFailures, interrupted := 0, false;
      low := T.ComputeLow(c.auto.lowBatteryPercent, false, charge);
      mode := Auto("");
      new;
      mode := Auto(T.AutoModeName(View()));
    }

    /** Commands to run once at startup. */
    method Start() returns (commands: seq<Command>)
      ensures commands == T.ModeCommands(View())
    {
      commands := ModeCommands();
    }

    method RestoreManualMode(name: string) returns (restored: bool)
      modifies this
      ensures View() == T.RestoreManualMode(old(View()), name) && restored == (name in config.modes)
    {
      if name !in config.modes {
        return false;
      }
      mode := Manual(name);
      return true;
    }

    method SetConfig(c: Config) returns (commands: seq<Command>)
      modifies this
      ensures T.Out(View(), commands) == T.SetConfig(old(View()), c)
    {
      config := c;
      low := T.ComputeLow(config.auto.lowBatteryPercent, low, battery);
      if mode.Auto? {
        mode := Auto(T.AutoModeName(View()));
      }
      commands := ModeCommands();
    }

    method ModeCommands() returns (commands: seq<Command>)
      ensures commands == T.ModeCommands(View())
    {
      commands := [];
      if mode.name != "" {
        commands := commands + [ApplyMode(mode.name)];
      }
      var stages := if state.PastGrace() then NO_STAGES else T.CurrentStages(View());
      commands := commands + [ReplaceIdleStages(stages)];
    }

    method ResumeCycle() returns (commands: seq<Command>)
      modifies this
      ensures T.Out(View(), commands) == T.ResumeCycle(old(View()))
    {
      state := LongSleep(Checking);
      commands := [ReplaceIdleStages(NO_STAGES), StartTimer(AwakeWindow, config.server.awakeWindow)];
    }

    // ------------------------------------------------------- modes, power

    /** Re-evaluates an auto mode; true when a different one was picked. */
    method SelectAutoMode() returns (changed: bool)
      modifies this
      ensures (View(), changed) == T.SelectAutoMode(old(View()))
    {
      if !mode.Auto? {
        return false;
      }
      var wanted := T.AutoModeName(View());
      if wanted == mode.name {
        return false;
      }
      mode := Auto(wanted);
      return true;
    }

    method ModeChanged() returns (commands: seq<Command>)
      ensures commands == T.ModeChanged(View())
    {
      commands := ModeCommands();
      commands := commands + [Broadcast(ModeChange(mode.name))];
    }

    method ReapplyAutoMode() returns (commands: seq<Command>)
      modifies this
      ensures T.Out(View(), commands) == T.ReapplyAutoMode(old(View()))
    {
      hide T.SelectAutoMode, T.ModeChanged;
      var changed := SelectAutoMode();
      if changed {
        commands := ModeChanged();
      } else {
        commands := [];
      }
    }

    method OnBattery(percent: nat) returns (commands: seq<Command>)
      modifies this
      ensures T.Out(View(), commands) == T.OnBattery(old(View()), percent)
    {
      hide T.ReapplyAutoMode, T.ComputeLow;
      battery := Some(percent);
      var now := T.ComputeLow(config.auto.lowBatteryPercent, low, Some(percent));
      if now == low {
        return [];
      }
      low := now;
      commands := ReapplyAutoMode();
    }

    method OnAcChanged(online: bool) returns (commands: seq<Command>)
      modifies this
      ensures T.Out(View(), commands) == T.OnAcChanged(old(View()), online)
    {
      hide T.ReapplyAutoMode, T.PowerIsBack, T.EnterGrace;
      if ac == online {
        return [];
      }
      ac := online;
      commands := [Broadcast(PowerChange(online))];
      if state == LongSleep(Grace) && online {
        state := Active;
        commands := commands + [CancelTimer(GraceTimer)];
        var more := ReapplyAutoMode();
        commands := commands + more;
      } else if state == LongSleep(Checking) && online {
        commands := commands + [CancelTimer(AwakeWindow)];
        var more := PowerIsBack();
        commands := commands + more;
      } else {
        var more := PowerMoved();
        commands := commands + more;
      }
    }

    /** AC comes or goes where neither ends a phase: the mode follows, and a cycle
        that waits for the loss begins. */
    method PowerMoved() returns (commands: seq<Command>)
      modifies this
      ensures var c := old(View());
              var follows := T.ReapplyAutoMode(c);
              var begins := T.EnterGrace(follows.core, c.config.server.gracePeriod);
              T.Out(View(), commands) ==
                if !c.ac && c.state.IsAwake() && c.config.server.enabled && c.config.server.trigger == AcLost
                then T.Out(begins.core, follows.cmds + begins.cmds) else follows
    {
      hide T.ReapplyAutoMode, T.EnterGrace;
      OnlyTheMode(View());
      commands := ReapplyAutoMode();
      if !ac && state.IsAwake() && config.server.enabled && config.server.trigger == AcLost {
        var more := EnterGrace(config.server.gracePeriod);
        commands := commands + more;
      }
    }

    // ------------------------------------------------------------- sleep

    method RequestSleep(force: bool, armRetry: bool) returns (commands: seq<Command>)
      modifies this
      ensures T.Out(View(), commands) == T.TrySleep(old(View()), force, armRetry)
    {
      hide T.Blocked;
      if !force && T.Blocked(View()) {
        if !armRetry {
          return [];
        }
        commands := ArmSleepRetry();
        return;
      }
      suspendFrom := state;
      state := Suspending;
      pendingSleep := false;
      commands := [GoToSleep(config.sleep.how, force)];
    }

    method ArmSleepRetry() returns (commands: seq<Command>)
      modifies this
      ensures T.Out(View(), commands) == T.ArmSleepRetry(old(View()))
    {
      var retry := config.sleep.retry;
      if retry == 0 {
        return [];
      }
      pendingSleep := true;
      commands := [StartTimer(SleepRetry, retry)];
    }

    method CancelPendingSleep() returns (commands: seq<Command>)
      modifies this
      ensures T.Out(View(), commands) == T.CancelPendingSleep(old(View()))
    {
      var was := pendingSleep;
      pendingSleep := false;
      commands := if was then [CancelTimer(SleepRetry)] else [];
    }

    method OnSleepBlocked(list: seq<Inhibitor>) returns (commands: seq<Command>)
      modifies this
      ensures T.Out(View(), commands) == T.OnSleepBlocked(old(View()), list)
    {
      hide T.CycleFailure, T.ArmSleepRetry;
      external := list;
      match state {
        case Suspending =>
          state := suspendFrom;
          commands := ArmSleepRetry();
        case LongSleep(Armed) =>
          commands := CycleFailure();
        case _ =>
          commands := [];
      }
    }

    method OnSleepFailed() returns (commands: seq<Command>)
      modifies this
      ensures T.Out(View(), commands) == T.OnSleepFailed(old(View()))
    {
      hide T.CycleFailure, T.OnActivity;
      match state {
        case Suspending =>
          commands := OnActivity();
        case LongSleep(Armed) =>
          commands := CycleFailure();
        case _ =>
          commands := [];
      }
    }

    method OnGoingDown() returns (commands: seq<Command>)
      modifies this
      ensures T.Out(View(), commands) == T.OnGoingDown(old(View()))
    {
      pendingSleep := false;
      if state.LongSleep? {
        sleepFailures := 0;
        state := LongSleep(Asleep);
      } else {
        state := Sleeping;
      }
      commands := [];
    }

    method OnResumed(byUser: bool) returns (commands: seq<Command>)
      modifies this
      ensures T.Out(View(), commands) == T.OnResumed(old(View()), byUser)
    {
      hide T.LeaveCycle, T.CheckPower;
      pendingSleep := false;
      if state.LongSleep? {
        if byUser && !ac {
          interrupted := true;
          commands := LeaveCycle();
          return;
        }
        commands := CheckPower();
        return;
      }
      state := Active;
      commands := [Undim, Screen(true), ReplaceIdleStages(T.CurrentStages(View()))];
    }

    // ------------------------------------------------------ idle, activity

    method OnIdle(stage: Stage) returns (commands: seq<Command>)
      modifies this
      ensures T.Out(View(), commands) == T.OnIdle(old(View()), stage)
    {
      hide T.TrySleep, T.IdleInhibited;
      commands := [];
      if T.IdleInhibited(View()) {
        return;
      }
      match stage {
        case DimStage =>
          if state == Active {
            state := Dimmed;
            commands := [Dim(config.dimPercent)];
          }
        case ScreenOffStage =>
          if state == Active || state == Dimmed {
            state := ScreenOff;
            commands := [Screen(false)];
          }
        case SleepStage =>
          if state.IsAwake() {
            commands := RequestSleep(false, true);
          }
      }
    }

    method OnActivity() returns (commands: seq<Command>)
      modifies this
      ensures T.Out(View(), commands) == T.OnActivity(old(View()))
    {
      hide T.CycleFailure, T.LeaveCycle;
      commands := CancelPendingSleep();
      match state {
        case Dimmed =>
          state := Active;
          commands := commands + [Undim];
        case ScreenOff =>
          state := Active;
          commands := commands + [Undim];
          commands := commands + [Screen(true)];
        case Suspending =>
          state := Active;
          commands := commands + [Undim];
          commands := commands + [Screen(true)];
        case LongSleep(Armed) =>
          var more := CycleFailure();
          commands := commands + more;
        case LongSleep(Checking) =>
          interrupted := true;
          commands := commands + [CancelTimer(AwakeWindow)];
          var more := LeaveCycle();
          commands := commands + more;
        case _ =>
      }
    }

    // ------------------------------------------------------- server cycle

    method EnterGrace(delay: Duration) returns (commands: seq<Command>)
      modifies this
      ensures T.Out(View(), commands) == T.EnterGrace(old(View()), delay)
    {
      state := LongSleep(Grace);
      sleepFailures := 0;
      interrupted := false;
      commands := CancelPendingSleep();
      commands := commands + [StartTimer(GraceTimer, delay)];
    }

    method Arm(first: bool) returns (commands: seq<Command>)
      modifies this
      ensures T.Out(View(), commands) == T.Arm(old(View()), first)
    {
      state := LongSleep(Armed);
      commands := [];
      if first {
        commands := commands + [ReplaceIdleStages(NO_STAGES)];
      }
      commands := commands + [ScheduleWake(config.server.checkInterval)];
    }

    method OnWakeScheduled(armed: bool) returns (commands: seq<Command>)
      modifies this
      ensures T.Out(View(), commands) == T.OnWakeScheduled(old(View()), armed)
    {
      hide T.CycleFailure, T.PowerIsBack, T.Blocked;
      if state != LongSleep(Armed) {
        return [];
      }
      if !armed {
        commands := CycleFailure();
        return;
      }
      if ac {
        commands := PowerIsBack();
        return;
      }
      if T.Blocked(View()) {
        commands := CycleFailure();
        return;
      }
      commands := [GoToSleep(config.sleep.how, false)];
    }

    method CycleFailure() returns (commands: seq<Command>)
      modifies this
      ensures T.Out(View(), commands) == T.CycleFailure(old(View()))
    {
      hide T.LeaveCycle;
      sleepFailures := sleepFailures + 1;
      if sleepFailures >= MAX_SLEEP_FAILURES {
        commands := LeaveCycle();
        return;
      }
      commands := [StartTimer(AwakeWindow, config.server.awakeWindow)];
    }

    method CheckPower() returns (commands: seq<Command>)
      modifies this
      ensures T.Out(View(), commands) == T.CheckPower(old(View()))
    {
      hide T.PowerIsBack, T.BatteryCritical, T.CriticalCommand;
      if ac {
        commands := PowerIsBack();
        return;
      }
      ghost var c := View();
      state := LongSleep(Checking);
      commands := [];
      assert T.BatteryCritical(View()) == T.BatteryCritical(c) && T.CriticalCommand(View()) == T.CriticalCommand(c)
        by { StateDoesNotMatter(c, View()); }
      if T.BatteryCritical(View()) {
        commands := commands + [Broadcast(PhaseChange(Critical))];
        commands := commands + [T.CriticalCommand(View())];
      }
      commands := commands + [StartTimer(AwakeWindow, config.server.awakeWindow)];
    }

    method PowerIsBack() returns (commands: seq<Command>)
      modifies this
      ensures T.Out(View(), commands) == T.PowerIsBack(old(View()))
    {
      hide T.LeaveCycle;
      commands := [];
      if config.server.resumeHook.Some? {
        commands := commands + [RunHook(config.server.resumeHook.value)];
      }
      var more := LeaveCycle();
      commands := commands + more;
    }

    /** Back to Active from any phase, with the alarm gone. */
    method LeaveCycle() returns (commands: seq<Command>)
      modifies this
      ensures T.Out(View(), commands) == T.LeaveCycle(old(View()))
    {
      hide T.SelectAutoMode, T.ModeCommands;
      state := Active;
      var changed := SelectAutoMode();
      commands := [CancelWake];
      var more := ModeCommands();
      commands := commands + more;
      if changed {
        commands := commands + [Broadcast(ModeChange(mode.name))];
      } else {
        assert commands + [] == commands;
      }
      commands := commands + [Undim];
      commands := commands + [Screen(true)];
    }

    method CancelCycle(phase: Phase) returns (commands: seq<Command>)
      modifies this
      ensures T.Out(View(), commands) == T.CancelCycle(old(View()), phase)
    {
      hide T.LeaveCycle;
      match phase {
        case Grace => commands := [CancelTimer(GraceTimer)];
        case Armed => commands := [CancelTimer(AwakeWindow)];
        case Checking => commands := [CancelTimer(AwakeWindow)];
        case Asleep => commands := [];
      }
      interrupted := false;
      var more := LeaveCycle();
      commands := commands + more;
    }

    method OnTimer(id: TimerId) returns (commands: seq<Command>)
      modifies this
      ensures T.Out(View(), commands) == T.OnTimer(old(View()), id)
    {
      hide T.TrySleep, T.Arm, T.PowerIsBack, T.CheckPower, T.BatteryCritical;
      commands := [];
      match id {
        case SleepRetry =>
          if pendingSleep {
            pendingSleep := false;
            commands := RequestSleep(false, true);
          }
        case InhibitExpiry(inhibit) =>
          inhibits := T.RemoveInhibit(inhibits, inhibit);
        case GraceTimer =>
          if state == LongSleep(Grace) {
            commands := Arm(true);
          }
        case AwakeWindow =>
          match state {
            case LongSleep(Armed) =>
              if ac {
                commands := PowerIsBack();
              } else {
                commands := Arm(false);
              }
            case LongSleep(Checking) =>
              if ac || T.BatteryCritical(View()) {
                commands := CheckPower();
              } else {
                commands := Arm(false);
              }
            case _ =>
          }
      }
    }

    // ----------------------------------------------------------------- ipc

    method OnIpc(id: RequestId, request: Request) returns (commands: seq<Command>)
      modifies this
      ensures T.Out(View(), commands) == T.OnIpc(old(View()), id, request)
    {
      hide T.OnActivity, T.OnSetMode, T.OnLongSleep, T.OnInhibit, T.OnUninhibit, T.OnRequestSleep;
      match request {
        case Status => commands := [Reply(id, StatusData(state))];
        case Modes => commands := [Reply(id, ModesData(mode))];
        case SetMode(name) => commands := OnSetMode(id, name);
        case RequestDim =>
          commands := [];
          if state == Active {
            state := Dimmed;
            commands := [Dim(config.dimPercent)];
          }
          commands := commands + [Reply(id, Done)];
        case RequestUndim =>
          commands := OnActivity();
          commands := commands + [Reply(id, Done)];
        case RequestScreen(on) =>
          commands := [];
          if on {
            commands := OnActivity();
          } else if state == Active || state == Dimmed {
            state := ScreenOff;
            commands := [Screen(false)];
          }
          commands := commands + [Reply(id, Done)];
        case RequestSleep(force) => commands := OnSleepRequest(id, force);
        case RequestLongSleep(cancel) => commands := OnLongSleep(id, cancel);
        case AddInhibit(what, why, ttl) => commands := OnInhibit(id, what, why, ttl);
        case Uninhibit(inhibit) => commands := OnUninhibit(id, inhibit);
        case RequestReload => commands := [Reload(Some(id))];
        case Subscribe => commands := [Reply(id, Refused(NotForTheEngine))];
        case Agent => commands := [Reply(id, Refused(NotForTheEngine))];
      }
    }

    method OnSleepRequest(id: RequestId, force: bool) returns (commands: seq<Command>)
      modifies this
      ensures T.Out(View(), commands) == T.OnRequestSleep(old(View()), id, force)
    {
      hide T.TrySleep, T.Blocked;
      if state.LongSleep? {
        return [Reply(id, Refused(InLongSleep))];
      }
      if !force && T.Blocked(View()) {
        return [Reply(id, Refused(BlockedByInhibitors))];
      }
      commands := RequestSleep(force, false);
      commands := commands + [Reply(id, Done)];
    }

    method OnLongSleep(id: RequestId, cancel: bool) returns (commands: seq<Command>)
      modifies this
      ensures T.Out(View(), commands) == T.OnLongSleep(old(View()), id, cancel)
    {
      hide T.CancelCycle, T.EnterGrace;
      if cancel {
        if !state.LongSleep? {
          return [Reply(id, Refused(NotInLongSleep))];
        }
        commands := CancelCycle(state.phase);
        commands := commands + [Reply(id, Done)];
        return;
      }
      if !config.server.enabled {
        return [Reply(id, Refused(ServerNotEnabled))];
      }
      if state.LongSleep? {
        return [Reply(id, Refused(AlreadyInLongSleep))];
      }
      if !state.IsAwake() {
        return [Reply(id, Refused(GoingToSleep))];
      }
      commands := EnterGrace(0);
      commands := commands + [Reply(id, Done)];
    }

    method OnSetMode(id: RequestId, name: string) returns (commands: seq<Command>)
      modifies this
      ensures T.Out(View(), commands) == T.OnSetMode(old(View()), id, name)
    {
      hide T.ModeChanged, T.AutoModeName;
      if name == "auto" {
        mode := Auto(T.AutoModeName(View()));
        commands := ModeChanged();
        commands := commands + [Reply(id, Done)];
        return;
      }
      if name !in config.modes {
        return [Reply(id, Refused(NoSuchMode))];
      }
      mode := Manual(name);
      commands := ModeChanged();
      commands := commands + [Reply(id, Done)];
    }

    method OnInhibit(request: RequestId, what: InhibitWhat, why: string, ttl: Duration) returns (commands: seq<Command>)
      modifies this
      ensures T.Out(View(), commands) == T.OnInhibit(old(View()), request, what, why, ttl)
    {
      var capped := Min(ttl, MAX_INHIBIT_TTL);
      if capped == 0 {
        return [Reply(request, Refused(ZeroTtl))];
      }
      var id := nextInhibitId;
      nextInhibitId := nextInhibitId + 1;
      inhibits := inhibits + [Inhibit(id, what, why, capped)];
      commands := [StartTimer(InhibitExpiry(id), capped), Reply(request, Inhibited(id))];
    }

    method OnUninhibit(request: RequestId, inhibit: nat) returns (commands: seq<Command>)
      modifies this
      ensures T.Out(View(), commands) == T.OnUninhibit(old(View()), request, inhibit)
    {
      if T.HasInhibit(inhibits, inhibit) {
        inhibits := T.RemoveInhibit(inhibits, inhibit);
        commands := [CancelTimer(InhibitExpiry(inhibit)), Reply(request, Done)];
      } else {
        commands := [Reply(request, Refused(NoSuchInhibitor))];
      }
    }

    // ------------------------------------------------------------ dispatch

    method OnShutdown() returns (commands: seq<Command>)
      modifies this
      ensures T.Out(View(), commands) == T.OnShutdown(old(View()))
    {
      commands := [];
      if state.LongSleep? {
        commands := commands + [CancelWake];
      }
      state := Active;
      commands := commands + [Undim, Screen(true), Shutdown];
    }

    method Dispatch(event: Event) returns (commands: seq<Command>)
      modifies this
      ensures T.Out(View(), commands) == T.Dispatch(old(View()), event)
    {
      hide T.OnIdle, T.OnActivity, T.OnAcChanged, T.OnBattery, T.OnGoingDown, T.OnResumed, T.OnTimer, T.OnIpc,
           T.OnSleepBlocked, T.OnSleepFailed, T.OnWakeScheduled, T.OnShutdown;
      match event {
        case Idle(stage) => commands := OnIdle(stage);
        case Activity => commands := OnActivity();
        case AcChanged(online) => commands := OnAcChanged(online);
        case Battery(percent) => commands := OnBattery(percent);
        case GoingDown => commands := OnGoingDown();
        case Resumed => commands := OnResumed(false);
        case ResumedByUser => commands := OnResumed(true);
        case TimerFired(id) => commands := OnTimer(id);
        case Ipc(id, request) => commands := OnIpc(id, request);
        case IdleBackendChanged(connected) => idleConnected := connected; commands := [];
        case HibernateAvailable(available) => hibernateAvailable := available; commands := [];
        case Inhibitors(list) => external := list; commands := [];
        case SleepBlocked(list) => commands := OnSleepBlocked(list);
        case SleepFailed => commands := OnSleepFailed();
        case WakeScheduled(armed) => commands := OnWakeScheduled(armed);
        case ReloadRequested => commands := [Reload(None)];
        case ShutdownRequested => commands := OnShutdown();
      }
    }

    method Handle(event: Event) returns (commands: seq<Command>)
      modifies this
      ensures T.Out(View(), commands) == T.Handle(old(View()), event)
    {
      hide T.Dispatch, T.ServerPhase;
      var from := state;
      commands := Dispatch(event);
      if state != from {
        commands := commands + [Broadcast(StateChange(from, state))];
        if from.LongSleep? || state.LongSleep? {
          commands := commands + [Broadcast(PhaseChange(T.ServerPhase(View())))];
        }
      }
    }
  }

  lemma OnlyTheMode(c: T.Core)
    ensures var d := T.ReapplyAutoMode(c).core; d == c.(mode := d.mode)
  {
  }

  lemma StateDoesNotMatter(c: T.Core, d: T.Core)
    requires d == c.(state := d.state)
    ensures T.BatteryCritical(c) == T.BatteryCritical(d) && T.CriticalCommand(c) == T.CriticalCommand(d)
  {
  }
}
