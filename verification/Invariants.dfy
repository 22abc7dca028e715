/** What every event keeps true of the engine together with everything its
    commands are going to do. One theorem, `HandleKeeps`, covers the events of
    the environment and the three that the daemon feeds back in mid-drain. */
module Invariants {
  import opened Types
  import opened Transition
  import opened Effects

  /** What the daemon knows besides: suspend requests logind has accepted and
      not answered, and the alarm armed since the last event. */
  datatype Context = Context(inflight: nat, armedAt: Option<Instant>)

  // ------------------------------------------------------------ the engine

  /** The mode auto-switching has to be in, as a function of power alone. */
  function Preferred(auto: AutoMode, ac: bool, low: bool): string {
    if ac then auto.onAc else if low then auto.onLowBattery else auto.onBattery
  }

  /** With auto-switching off, whatever it was, and the first mode there is if
      there has been none. */
  function Wanted(config: Config, name: string, ac: bool, low: bool): string {
    if config.auto.enabled then Preferred(config.auto, ac, low)
    else if name != "" then name
    else config.firstMode
  }

  ghost predicate AutoModeOk(c: Core) {
    c.mode.Auto? ==> c.mode.name == Wanted(c.config, c.mode.name, c.ac, c.low)
  }

  ghost predicate LowOk(c: Core) {
    match c.battery
    case None => !c.low
    case Some(p) =>
      && (p <= c.config.auto.lowBatteryPercent ==> c.low)
      && (p > c.config.auto.lowBatteryPercent && p >= Min(c.config.auto.lowBatteryPercent + 5, 100) ==> !c.low)
  }

  ghost predicate TableOk(inhibits: seq<Inhibit>, next: nat) {
    && (forall i, j :: 0 <= i < j < |inhibits| ==> inhibits[i].id < inhibits[j].id)
    && (forall i :: 0 <= i < |inhibits| ==> inhibits[i].id < next)
  }

  /** No retry is pending in the cycle, the cycle is never returned to by a
      refused suspend, and fewer than three attempts have failed in a row. */
  ghost predicate CycleOk(c: Core) {
    && (c.state.LongSleep? ==> !c.pendingSleep && c.sleepFailures < MAX_SLEEP_FAILURES)
    && !c.suspendFrom.LongSleep?
  }

  // ------------------------------------------- the engine and the effects

  /** A phase that waits for a timer has that timer running. */
  ghost predicate TimersOk(c: Core, v: Effects) {
    && (c.state == LongSleep(Grace) ==> GraceTimer in v.timers)
    && (c.state == LongSleep(Checking) ==> AwakeWindow in v.timers)
    && (c.pendingSleep ==> SleepRetry in v.timers)
  }

  /** The running expiry timers are exactly the inhibitors in the table. */
  ghost predicate ExpiriesOk(c: Core, v: Effects) {
    forall id :: InhibitExpiry(id) in v.timers <==> HasInhibit(c.inhibits, id)
  }

  ghost predicate AlarmOk(c: Core, v: Effects) {
    v.scheduled.Some? || v.live ==> c.state.PastGrace()
  }

  ghost predicate StagesOk(c: Core, v: Effects) {
    !c.state.PastGrace() ==> v.stages == CurrentStages(c) || v.pivots == [Shutdown]
  }

  /** Every pivot that is still to be executed finds the engine as it was when
      the pivot was sent. */
  ghost predicate PivotOk(c: Core, v: Effects, k: Context, p: Command) {
    match p
    case ScheduleWake(after) => c.state == LongSleep(Armed) && after == c.config.server.checkInterval
    case GoToSleep(how, force) =>
      if !c.state.LongSleep? then c.state == Suspending && how == c.config.sleep.how && (!force ==> !Blocked(c))
      else if force then
        && c.state == LongSleep(Checking) && !c.ac && BatteryCritical(c)
        && how == Hibernate && c.config.server.criticalAction == CriticalHibernate && c.hibernateAvailable
      else
        && c.state == LongSleep(Armed) && !c.ac && !Blocked(c) && how == c.config.sleep.how
        && v.scheduled.Some? && v.scheduled == k.armedAt && v.live
    case PowerOff =>
      && c.state == LongSleep(Checking) && !c.ac && BatteryCritical(c)
      && !(c.config.server.criticalAction == CriticalHibernate && c.hibernateAvailable)
    case Reload(_) => true
    case Shutdown => c.state == Active
    case _ => false
  }

  ghost predicate PivotsOk(c: Core, v: Effects, k: Context) {
    && |v.pivots| <= 1
    && (v.pivots != [] ==> PivotOk(c, v, k, v.pivots[0]))
  }

  /** Everything except that a waiting state has something to wait for. */
  ghost predicate Steady(c: Core, v: Effects, k: Context) {
    && CycleOk(c) && AutoModeOk(c) && LowOk(c) && TableOk(c.inhibits, c.nextInhibitId)
    && TimersOk(c, v) && ExpiriesOk(c, v) && AlarmOk(c, v) && StagesOk(c, v) && PivotsOk(c, v, k)
  }

  /** The two states that wait for an answer. A suspend asked for while one was
      already under way has nowhere to go back to, and is left out. */
  predicate Waiting(c: Core) {
    c.state == LongSleep(Armed) || (c.state == Suspending && c.suspendFrom != Suspending)
  }

  /** `Armed` waits for the window, `Suspending` does not, and both wait for an
      unanswered request or for a command that is about to run. */
  ghost predicate WaitingOk(c: Core, v: Effects, k: Context) {
    Waiting(c) ==>
      || (c.state == LongSleep(Armed) && AwakeWindow in v.timers)
      || k.inflight > 0
      || (v.pivots != [] && (v.pivots[0].ScheduleWake? || v.pivots[0].GoToSleep?))
  }

  ghost predicate Sound(c: Core, v: Effects, k: Context) {
    Steady(c, v, k) && WaitingOk(c, v, k)
  }

  // -------------------------------------------------------------- the panel

  predicate Dark(v: Effects) {
    v.dimmed || v.screenOff
  }

  /** What the state promises about the panel. A suspend that is refused goes
      back to `suspendFrom`, so that state's promise is kept meanwhile. */
  ghost predicate PanelOk(c: Core, v: Effects) {
    var s := if c.state == Suspending then c.suspendFrom else c.state;
    && (s == Active ==> !Dark(v))
    && (s == Dimmed ==> !v.screenOff)
  }

  /** The one step that leaves the panel dark in `Active`. */
  predicate Strands(c: Core, v: Effects, e: Event) {
    e == AcChanged(true) && !c.ac && c.state == LongSleep(Grace) && Dark(v)
  }

  // ------------------------------------------------------------ the replies

  function OwedBy(pivots: seq<Command>): multiset<RequestId> {
    if |pivots| == 1 && pivots[0].Reload? && pivots[0].replyTo.Some? then multiset{pivots[0].replyTo.value}
    else multiset{}
  }

  function OwedFor(e: Event): multiset<RequestId> {
    if e.Ipc? then multiset{e.id} else multiset{}
  }

  // ----------------------------------------------------- what a handler keeps

  ghost predicate Keeps(c: Core, v: Effects, o: Out, k: Context, owed: multiset<RequestId>) {
    var v' := After(v, o.cmds);
    && Sound(o.core, v', k)
    && v'.lastTo == v.lastTo && v'.chained == v.chained
    && v'.answered + OwedBy(v'.pivots) == v.answered + owed
  }

  ghost predicate KeepsPanel(c: Core, v: Effects, o: Out) {
    PanelOk(c, v) ==> PanelOk(o.core, After(v, o.cmds))
  }

  /** Between events, and when a pivot has just been taken off the queue. */
  ghost predicate Ready(c: Core, v: Effects, k: Context) {
    Steady(c, v, k) && v.pivots == []
  }

  // ----------------------------------------------------- pieces of handlers

  lemma SelectAutoModeFacts(c: Core)
    ensures SelectAutoMode(c).0 == c.(mode := SelectAutoMode(c).0.mode)
    ensures !SelectAutoMode(c).1 ==> SelectAutoMode(c).0 == c
    ensures AutoModeOk(SelectAutoMode(c).0)
  {
  }

  lemma LeaveCycleFacts(c: Core)
    ensures var c' := LeaveCycle(c).core; c' == c.(state := Active, mode := c'.mode) && AutoModeOk(c')
  {
    hide SelectAutoMode;
    SelectAutoModeFacts(c.(state := Active));
  }

  /** `Active` asks for little. */
  lemma ActiveIsEasy(c: Core, v: Effects, k: Context)
    requires c.state == Active && LowOk(c) && AutoModeOk(c) && TableOk(c.inhibits, c.nextInhibitId) && ExpiriesOk(c, v)
    requires !c.suspendFrom.LongSleep? && (c.pendingSleep ==> SleepRetry in v.timers)
    requires v.scheduled.None? && !v.live
    requires (v.pivots == [] && v.stages == CurrentStages(c)) || v.pivots == [Shutdown]
    ensures Sound(c, v, k)
    ensures PanelOk(c, v) <==> !Dark(v)
  {
    hide LowOk, AutoModeOk, TableOk, ExpiriesOk, CurrentStages;
  }

  /** Leaving the cycle is safe from anywhere: it cancels the alarm, restores
      the stages and lights the panel. Only the timers are left alone. */
  lemma LeaveCycleKeeps(c: Core, v: Effects, k: Context)
    requires LowOk(c) && TableOk(c.inhibits, c.nextInhibitId) && ExpiriesOk(c, v)
    requires !c.pendingSleep && !c.suspendFrom.LongSleep? && v.pivots == []
    ensures Keeps(c, v, LeaveCycle(c), k, multiset{})
    ensures PanelOk(LeaveCycle(c).core, After(v, LeaveCycle(c).cmds))
  {
    hide After, LeaveCycle, CurrentStages, AutoModeOk, LowOk, TableOk;
    LeaveCycleFacts(c);
    LeaveCycleEffect(c, v);
    LowTableDepend(c, LeaveCycle(c).core);
  }

  /** `LowOk` and `TableOk` look at nothing but these fields. */
  lemma LowTableDepend(c: Core, d: Core)
    requires c.config == d.config && c.battery == d.battery && c.low == d.low
    ensures LowOk(c) <==> LowOk(d)
  {
  }

  lemma PowerIsBackKeeps(c: Core, v: Effects, k: Context)
    requires LowOk(c) && TableOk(c.inhibits, c.nextInhibitId) && ExpiriesOk(c, v)
    requires !c.pendingSleep && !c.suspendFrom.LongSleep? && v.pivots == []
    ensures Keeps(c, v, PowerIsBack(c), k, multiset{})
    ensures PanelOk(PowerIsBack(c).core, After(v, PowerIsBack(c).cmds))
  {
    hide *;
    PowerIsBackEffect(c, v);
    LeaveCycleEffect(c, v);
    LeaveCycleKeeps(c, v, k);
    assert Keeps(c, v, PowerIsBack(c), k, multiset{}) by {
      SameOutcome(c, v, LeaveCycle(c), PowerIsBack(c), k, multiset{});
    }
  }

  /** `Keeps` looks at the commands only through their effect. */
  lemma SameOutcome(c: Core, v: Effects, o: Out, o': Out, k: Context, owed: multiset<RequestId>)
    requires o.core == o'.core && After(v, o.cmds) == After(v, o'.cmds)
    ensures Keeps(c, v, o, k, owed) <==> Keeps(c, v, o', k, owed)
  {
    hide After;
  }

  /** A failed attempt waits out the window, or ends the cycle. */
  lemma CycleFailureKeeps(c: Core, v: Effects, k: Context)
    requires Ready(c, v, k) && c.state == LongSleep(Armed)
    ensures Keeps(c, v, CycleFailure(c), k, multiset{}) && KeepsPanel(c, v, CycleFailure(c))
  {
    hide After, LeaveCycle, CurrentStages;
    var c' := c.(sleepFailures := c.sleepFailures + 1);
    if c'.sleepFailures >= MAX_SLEEP_FAILURES {
      LeaveCycleKeeps(c', v, k);
    } else {
      CycleFailureEffect(c, v);
    }
  }

  lemma CheckPowerKeeps(c: Core, v: Effects, k: Context)
    requires CycleOk(c) && AutoModeOk(c) && LowOk(c) && TableOk(c.inhibits, c.nextInhibitId)
    requires ExpiriesOk(c, v) && c.state.LongSleep? && v.pivots == []
    ensures Keeps(c, v, CheckPower(c), k, multiset{}) && KeepsPanel(c, v, CheckPower(c))
  {
    hide After, LeaveCycle, PowerIsBack, CurrentStages, Critically, AutoModeOk, LowOk, TableOk;
    if c.ac {
      PowerIsBackKeeps(c, v, k);
    } else {
      CheckPowerEffect(c, v);
      ModeFactsDepend(c, CheckPower(c).core);
    }
  }

  lemma EnterGraceKeeps(c: Core, delay: Duration, v: Effects, k: Context)
    requires Ready(c, v, k) && c.state.IsAwake()
    ensures Keeps(c, v, EnterGrace(c, delay), k, multiset{})
    ensures PanelOk(EnterGrace(c, delay).core, After(v, EnterGrace(c, delay).cmds))
  {
    hide After, CurrentStages, AutoModeOk, LowOk;
    EnterGraceEffect(c, delay, v);
    var c' := EnterGrace(c, delay).core;
    assert c' == c.(state := LongSleep(Grace), sleepFailures := 0, interrupted := false, pendingSleep := false);
    ModeFactsDepend(c, c');
  }

  lemma ModeFactsDepend(c: Core, d: Core)
    requires c.config == d.config && c.battery == d.battery && c.low == d.low && c.mode == d.mode && c.ac == d.ac
    ensures LowOk(c) <==> LowOk(d)
    ensures AutoModeOk(c) <==> AutoModeOk(d)
    ensures CurrentStages(c) == CurrentStages(d)
  {
  }

  lemma ArmSleepRetryKeeps(c: Core, v: Effects, k: Context)
    requires Sound(c, v, k) && v.pivots == [] && !c.state.LongSleep?
    ensures Keeps(c, v, ArmSleepRetry(c), k, multiset{}) && KeepsPanel(c, v, ArmSleepRetry(c))
  {
    hide After, CurrentStages, AutoModeOk, LowOk;
    ArmSleepRetryEffect(c, v);
    ModeFactsDepend(c, ArmSleepRetry(c).core);
  }

  lemma BlockedDepends(c: Core, d: Core)
    requires c.config == d.config && c.external == d.external && c.inhibits == d.inhibits
    ensures Blocked(c) <==> Blocked(d)
  {
  }

  lemma TrySleepKeeps(c: Core, force: bool, armRetry: bool, v: Effects, k: Context)
    requires Sound(c, v, k) && v.pivots == [] && !c.state.LongSleep?
    ensures Keeps(c, v, TrySleep(c, force, armRetry), k, multiset{})
    ensures KeepsPanel(c, v, TrySleep(c, force, armRetry))
  {
    hide After, CurrentStages, AutoModeOk, LowOk, Blocked, ArmSleepRetry;
    if !force && Blocked(c) {
      if armRetry {
        ArmSleepRetryKeeps(c, v, k);
      } else {
        AfterNone(v);
      }
    } else {
      TrySleepEffect(c, force, armRetry, v);
      ModeFactsDepend(c, TrySleep(c, force, armRetry).core);
      BlockedDepends(c, TrySleep(c, force, armRetry).core);
    }
  }

  lemma ArmKeeps(c: Core, first: bool, v: Effects, k: Context)
    requires CycleOk(c) && AutoModeOk(c) && LowOk(c) && TableOk(c.inhibits, c.nextInhibitId)
    requires ExpiriesOk(c, v) && c.state.LongSleep? && v.pivots == []
    ensures Keeps(c, v, Arm(c, first), k, multiset{}) && KeepsPanel(c, v, Arm(c, first))
  {
    hide After, CurrentStages, AutoModeOk, LowOk;
    ArmEffect(c, first, v);
    ModeFactsDepend(c, Arm(c, first).core);
  }

  // ---------------------------------------------------------------- handlers

  lemma NothingKeeps(c: Core, v: Effects, k: Context)
    requires Sound(c, v, k) && v.pivots == []
    ensures Keeps(c, v, Out(c, []), k, multiset{}) && KeepsPanel(c, v, Out(c, []))
  {
    hide Sound;
  }

  /** A step among the states outside the cycle, with no timers and no alarm. */
  lemma AwakeMoveKeeps(c: Core, to: State, v: Effects, v': Effects, k: Context)
    requires Ready(c, v, k) && !c.state.LongSleep? && to.IsAwake()
    requires v' == v.(dimmed := v'.dimmed, screenOff := v'.screenOff)
    ensures Sound(c.(state := to), v', k)
  {
    hide CurrentStages, AutoModeOk, LowOk;
    ModeFactsDepend(c, c.(state := to));
  }

  lemma OnIdleKeeps(c: Core, stage: Stage, v: Effects, k: Context)
    requires Sound(c, v, k) && v.pivots == []
    ensures Keeps(c, v, OnIdle(c, stage), k, multiset{}) && KeepsPanel(c, v, OnIdle(c, stage))
  {
    hide After, Sound, TrySleep, IdleInhibited, Keeps, KeepsPanel;
    NothingKeeps(c, v, k);
    if IdleInhibited(c) {
    } else if stage == SleepStage && c.state.IsAwake() {
      TrySleepKeeps(c, false, true, v, k);
    } else if stage == DimStage && c.state == Active {
      DimKeeps(c, v, k);
    } else if stage == ScreenOffStage && (c.state == Active || c.state == Dimmed) {
      ScreenOffKeeps(c, v, k);
    }
  }

  lemma DimKeeps(c: Core, v: Effects, k: Context)
    requires Sound(c, v, k) && v.pivots == [] && c.state == Active
    ensures var o := Out(c.(state := Dimmed), [Dim(c.config.dimPercent)]);
            Keeps(c, v, o, k, multiset{}) && KeepsPanel(c, v, o)
  {
    hide After, Sound;
    SoundIsReady(c, v, k);
    AfterOne(v, Dim(c.config.dimPercent));
    AwakeMoveKeeps(c, Dimmed, v, v.(dimmed := true), k);
  }

  lemma ScreenOffKeeps(c: Core, v: Effects, k: Context)
    requires Sound(c, v, k) && v.pivots == [] && (c.state == Active || c.state == Dimmed)
    ensures var o := Out(c.(state := ScreenOff), [Screen(false)]);
            Keeps(c, v, o, k, multiset{}) && KeepsPanel(c, v, o)
  {
    hide After, Sound;
    SoundIsReady(c, v, k);
    AfterOne(v, Screen(false));
    AwakeMoveKeeps(c, ScreenOff, v, v.(screenOff := true), k);
  }

  lemma SoundIsReady(c: Core, v: Effects, k: Context)
    requires Sound(c, v, k) && v.pivots == []
    ensures Ready(c, v, k)
  {
    hide Steady;
  }

  lemma RetryDropped(c: Core, v: Effects, k: Context)
    requires Ready(c, v, k)
    ensures var d, u := c.(pendingSleep := false), v.(timers := v.timers - {SleepRetry});
            && Ready(d, u, k) && (WaitingOk(c, v, k) ==> WaitingOk(d, u, k)) && (c.state.LongSleep? ==> !c.pendingSleep)
  {
    hide CurrentStages, AutoModeOk, LowOk, TableOk, ExpiriesOk;
    var d := c.(pendingSleep := false);
    ModeFactsDepend(c, d);
    ExpiriesDepend(c, d, v, v);
    ExpiriesFrame(d, v, SleepRetry);
  }

  lemma CancelPendingSleepKeeps(c: Core, v: Effects, k: Context)
    requires Ready(c, v, k)
    ensures var o := CancelPendingSleep(c);
            var v' := After(v, o.cmds);
            && Ready(o.core, v', k)
            && o.core == c.(pendingSleep := false)
            && v' == v.(timers := v'.timers)
            && (WaitingOk(c, v, k) ==> WaitingOk(o.core, v', k))
            && (c.state.LongSleep? ==> o == Out(c, []) && v' == v)
  {
    hide After, Ready, WaitingOk;
    CancelPendingSleepEffect(c, v);
    RetryDropped(c, v, k);
    if !c.pendingSleep {
      assert c == c.(pendingSleep := false);
    }
  }

  /** Outside the ordinary states, activity is a failed attempt. */
  lemma ActivityArmedKeeps(c: Core, v: Effects, k: Context)
    requires Ready(c, v, k) && c.state == LongSleep(Armed)
    ensures Keeps(c, v, OnActivity(c), k, multiset{}) && KeepsPanel(c, v, OnActivity(c))
  {
    hide After, Sound, Steady, PanelOk, CycleFailure, LeaveCycle, CancelPendingSleep;
    CancelPendingSleepKeeps(c, v, k);
    CycleFailureKeeps(c, v, k);
    assert [] + CycleFailure(c).cmds == CycleFailure(c).cmds;
  }

  /** Or the end of the cycle. */
  lemma ActivityCheckingKeeps(c: Core, v: Effects, k: Context)
    requires Ready(c, v, k) && c.state == LongSleep(Checking)
    ensures Keeps(c, v, OnActivity(c), k, multiset{}) && KeepsPanel(c, v, OnActivity(c))
  {
    hide After, Sound, PanelOk, LeaveCycle, CancelPendingSleep, CurrentStages, LowOk, TableOk, AutoModeOk, HasInhibit;
    CancelPendingSleepKeeps(c, v, k);
    var c' := c.(interrupted := true);
    var v' := v.(timers := v.timers - {AwakeWindow});
    LowTableDepend(c, c');
    assert ExpiriesOk(c', v') by { ExpiriesFrame(c, v, AwakeWindow); }
    LeaveCycleKeeps(c', v', k);
    AfterConcat(v, [CancelTimer(AwakeWindow)], LeaveCycle(c').cmds);
    AfterOne(v, CancelTimer(AwakeWindow));
    assert [] + [CancelTimer(AwakeWindow)] == [CancelTimer(AwakeWindow)];
  }

  lemma ActivityOutsideKeeps(c: Core, v: Effects, k: Context)
    requires Ready(c, v, k) && (c.state != Suspending ==> Sound(c, v, k))
    requires c.state != LongSleep(Armed) && c.state != LongSleep(Checking)
    ensures Keeps(c, v, OnActivity(c), k, multiset{}) && KeepsPanel(c, v, OnActivity(c))
  {
    hide After, CancelPendingSleep, Steady;
    CancelPendingSleepKeeps(c, v, k);
    var o := CancelPendingSleep(c);
    var v1 := After(v, o.cmds);
    if c.state == Dimmed || c.state == ScreenOff || c.state == Suspending {
      AfterConcat(v, o.cmds, [Undim]);
      AfterOne(v1, Undim);
      var v2 := v1.(dimmed := false);
      if c.state == Dimmed {
        AwakeMoveKeeps(o.core, Active, v1, v2, k);
      } else {
        AfterConcat(v, o.cmds + [Undim], [Screen(true)]);
        AfterOne(v2, Screen(true));
        AwakeMoveKeeps(o.core, Active, v1, v2.(screenOff := false), k);
      }
    }
  }

  lemma OnActivityKeeps(c: Core, v: Effects, k: Context)
    requires Ready(c, v, k) && (!Waiting(c) ==> Sound(c, v, k))
    ensures Keeps(c, v, OnActivity(c), k, multiset{}) && KeepsPanel(c, v, OnActivity(c))
  {
    hide Ready, Sound, Keeps, KeepsPanel, OnActivity;
    if c.state == LongSleep(Armed) {
      ActivityArmedKeeps(c, v, k);
    } else if c.state == LongSleep(Checking) {
      ActivityCheckingKeeps(c, v, k);
    } else {
      ActivityOutsideKeeps(c, v, k);
    }
  }

  lemma ReadyHasNoPivots(c: Core, v: Effects, k: Context)
    requires Ready(c, v, k)
    ensures v.pivots == []
  {
    hide Steady;
  }

  lemma OnSleepBlockedKeeps(c: Core, list: seq<Inhibitor>, v: Effects, k: Context)
    requires Ready(c, v, k) && (!Waiting(c) ==> Sound(c, v, k))
    ensures Keeps(c, v, OnSleepBlocked(c, list), k, multiset{})
    ensures KeepsPanel(c, v, OnSleepBlocked(c, list))
  {
    hide After, ArmSleepRetry, CycleFailure, Ready, Sound, PanelOk;
    var c' := c.(external := list);
    RefusalReady(c, list, v, k);
    RefusalPanel(c, list, v);
    if c.state == Suspending {
      ArmSleepRetryKeeps(c'.(state := c.suspendFrom), v, k);
    } else if c.state == LongSleep(Armed) {
      CycleFailureKeeps(c', v, k);
    } else {
      NothingKeeps(c', v, k);
    }
  }

  /** A refusal before anything is done about it: back where it came from, with
      a new list. */
  lemma RefusalReady(c: Core, list: seq<Inhibitor>, v: Effects, k: Context)
    requires Ready(c, v, k) && (!Waiting(c) ==> Sound(c, v, k))
    ensures v.pivots == [] && Ready(c.(external := list), v, k) && !c.suspendFrom.LongSleep?
    ensures c.state == Suspending ==> Sound(c.(external := list, state := c.suspendFrom), v, k)
    ensures !Waiting(c) ==> Sound(c.(external := list), v, k)
  {
    hide CurrentStages, LowOk, AutoModeOk, TableOk, ExpiriesOk;
    var c' := c.(external := list);
    var c'' := c'.(state := c.suspendFrom);
    ModeFactsDepend(c, c');
    ModeFactsDepend(c, c'');
    ExpiriesDepend(c, c', v, v);
    ExpiriesDepend(c, c'', v, v);
  }

  lemma RefusalPanel(c: Core, list: seq<Inhibitor>, v: Effects)
    ensures PanelOk(c, v) ==> PanelOk(c.(external := list), v)
    ensures c.state == Suspending && PanelOk(c, v) && c.suspendFrom != Suspending ==>
              PanelOk(c.(external := list, state := c.suspendFrom), v)
    ensures c.suspendFrom == Suspending ==> PanelOk(c.(external := list, state := Suspending), v)
  {
  }

  lemma PanelDepends(c: Core, d: Core, v: Effects, w: Effects)
    requires c.state == d.state && c.suspendFrom == d.suspendFrom && v.dimmed == w.dimmed && v.screenOff == w.screenOff
    ensures PanelOk(c, v) <==> PanelOk(d, w)
  {
  }

  lemma OnSleepFailedKeeps(c: Core, v: Effects, k: Context)
    requires Ready(c, v, k) && (!Waiting(c) ==> Sound(c, v, k))
    ensures Keeps(c, v, OnSleepFailed(c), k, multiset{}) && KeepsPanel(c, v, OnSleepFailed(c))
  {
    hide After, Sound, OnActivity, CycleFailure;
    if c.state == Suspending {
      OnActivityKeeps(c, v, k);
    } else if c.state == LongSleep(Armed) {
      CycleFailureKeeps(c, v, k);
    } else {
      NothingKeeps(c, v, k) by { ReadyHasNoPivots(c, v, k); }
    }
  }

  lemma OnGoingDownKeeps(c: Core, v: Effects, k: Context)
    requires Ready(c, v, k)
    ensures Keeps(c, v, OnGoingDown(c), k, multiset{}) && KeepsPanel(c, v, OnGoingDown(c))
  {
    hide After, CurrentStages, AutoModeOk, LowOk, TableOk, ExpiriesOk;
    ModeFactsDepend(c, OnGoingDown(c).core);
    ExpiriesDepend(c, OnGoingDown(c).core, v, v);
    AfterNone(v);
  }

  lemma ResumedOutsideKeeps(c: Core, byUser: bool, v: Effects, k: Context)
    requires Ready(c, v, k) && !c.state.LongSleep?
    ensures Keeps(c, v, OnResumed(c, byUser), k, multiset{}) && KeepsPanel(c, v, OnResumed(c, byUser))
  {
    hide After, CurrentStages, AutoModeOk, LowOk, TableOk, ExpiriesOk, Sound, PanelOk, OnResumed;
    var c' := c.(pendingSleep := false, state := Active);
    var v' := v.(dimmed := false, screenOff := false, stages := CurrentStages(c'));
    ModeFactsDepend(c, c');
    ResumedEffect(c, byUser, v);
    ExpiriesDepend(c, c', v, v');
    ActiveIsEasy(c', v', k);
  }

  lemma ResumedEffect(c: Core, byUser: bool, v: Effects)
    requires !c.state.LongSleep?
    ensures var c' := c.(pendingSleep := false, state := Active);
            && OnResumed(c, byUser).core == c'
            && After(v, OnResumed(c, byUser).cmds) == v.(dimmed := false, screenOff := false, stages := CurrentStages(c'))
  {
    hide After, CurrentStages;
    var c' := c.(pendingSleep := false, state := Active);
    AfterLast(v, [Undim] + [Screen(true)], ReplaceIdleStages(CurrentStages(c')));
    AfterLast(v, [Undim], Screen(true));
    AfterOne(v, Undim);
  }

  lemma ExpiriesDepend(c: Core, d: Core, v: Effects, w: Effects)
    requires c.inhibits == d.inhibits && v.timers == w.timers
    ensures ExpiriesOk(c, v) <==> ExpiriesOk(d, w)
  {
    hide HasInhibit;
  }

  lemma OnResumedKeeps(c: Core, byUser: bool, v: Effects, k: Context)
    requires Ready(c, v, k)
    ensures Keeps(c, v, OnResumed(c, byUser), k, multiset{}) && KeepsPanel(c, v, OnResumed(c, byUser))
  {
    hide Ready, Keeps, KeepsPanel, OnResumed;
    if !c.state.LongSleep? {
      ResumedOutsideKeeps(c, byUser, v, k);
    } else {
      ResumedInCycleKeeps(c, byUser, v, k);
    }
  }

  lemma ResumedInCycleKeeps(c: Core, byUser: bool, v: Effects, k: Context)
    requires Ready(c, v, k) && c.state.LongSleep?
    ensures Keeps(c, v, OnResumed(c, byUser), k, multiset{}) && KeepsPanel(c, v, OnResumed(c, byUser))
  {
    hide After, CurrentStages, AutoModeOk, LowOk, TableOk, LeaveCycle, CheckPower, Sound, PanelOk;
    var c' := c.(pendingSleep := false);
    ModeFactsDepend(c, c');
    if byUser && !c.ac {
      ModeFactsDepend(c, c'.(interrupted := true));
      LeaveCycleKeeps(c'.(interrupted := true), v, k);
    } else {
      CheckPowerKeeps(c', v, k);
    }
  }

  lemma OnWakeScheduledKeeps(c: Core, armed: bool, v: Effects, k: Context)
    requires Ready(c, v, k) && c.state == LongSleep(Armed)
    requires armed ==> v.scheduled.Some? && v.scheduled == k.armedAt && v.live
    ensures Keeps(c, v, OnWakeScheduled(c, armed), k, multiset{})
    ensures KeepsPanel(c, v, OnWakeScheduled(c, armed))
  {
    hide After, CycleFailure, PowerIsBack, Blocked, CurrentStages, AutoModeOk, LowOk;
    if !armed || (!c.ac && Blocked(c)) {
      CycleFailureKeeps(c, v, k);
    } else if c.ac {
      PowerIsBackKeeps(c, v, k);
    } else {
      AfterOne(v, GoToSleep(c.config.sleep.how, false));
    }
  }

  // ------------------------------------------------------------------ timers

  lemma {:induction false} RemoveInhibitExactly(inhibits: seq<Inhibit>, id: nat, next: nat)
    requires TableOk(inhibits, next)
    ensures forall i :: i in RemoveInhibit(inhibits, id) <==> i in inhibits && i.id != id
  {
    if inhibits != [] {
      var head, rest := inhibits[0], inhibits[1..];
      assert forall i :: i in inhibits <==> i == head || i in rest;
      assert forall i :: i in rest ==> head.id < i.id;
      RemoveInhibitExactly(rest, id, next);
    }
  }

  lemma TableTail(inhibits: seq<Inhibit>, next: nat)
    requires inhibits != [] && TableOk(inhibits, next)
    ensures TableOk(inhibits[1..], next) && inhibits[0].id < next
    ensures forall i :: i in inhibits[1..] ==> inhibits[0].id < i.id
  {
  }

  lemma TableCons(head: Inhibit, rest: seq<Inhibit>, next: nat)
    requires TableOk(rest, next) && head.id < next
    requires forall i :: i in rest ==> head.id < i.id
    ensures TableOk([head] + rest, next)
  {
    var all := [head] + rest;
    assert forall k :: 0 < k < |all| ==> all[k] == rest[k - 1] && all[k] in rest;
  }

  lemma {:induction false} RemoveInhibitSorted(inhibits: seq<Inhibit>, id: nat, next: nat)
    requires TableOk(inhibits, next)
    ensures TableOk(RemoveInhibit(inhibits, id), next)
  {
    hide TableOk;
    if inhibits != [] {
      var head, rest := inhibits[0], inhibits[1..];
      TableTail(inhibits, next);
      if head.id != id {
        RemoveInhibitExactly(rest, id, next);
        RemoveInhibitSorted(rest, id, next);
        TableCons(head, RemoveInhibit(rest, id), next);
      }
    }
  }

  /** Removing an entry removes exactly the entries with that id. */
  lemma RemoveInhibitFacts(inhibits: seq<Inhibit>, id: nat, next: nat)
    requires TableOk(inhibits, next)
    ensures TableOk(RemoveInhibit(inhibits, id), next)
    ensures forall i :: HasInhibit(RemoveInhibit(inhibits, id), i) <==> HasInhibit(inhibits, i) && i != id
  {
    hide TableOk, RemoveInhibit;
    RemoveInhibitExactly(inhibits, id, next);
    RemoveInhibitSorted(inhibits, id, next);
  }

  /** The state just before the timer went off, in terms of the state after. */
  ghost predicate BeforeFire(c: Core, v: Effects, id: TimerId, k: Context) {
    && id !in v.timers
    && Sound(c, v.(timers := v.timers + {id}), k) && v.pivots == []
  }

  lemma ExpiryKeeps(c: Core, id: nat, v: Effects, k: Context)
    requires BeforeFire(c, v, InhibitExpiry(id), k)
    ensures var o := OnTimer(c, InhibitExpiry(id)); Keeps(c, v, o, k, multiset{}) && KeepsPanel(c, v, o)
  {
    hide After, CurrentStages, AutoModeOk, LowOk, TableOk;
    RemoveInhibitFacts(c.inhibits, id, c.nextInhibitId);
    var o := OnTimer(c, InhibitExpiry(id));
    ModeFactsDepend(c, o.core);
    AfterNone(v);
    hide HasInhibit, RemoveInhibit;
    var w := v.(timers := v.timers + {InhibitExpiry(id)});
    assert ExpiriesOk(o.core, v) by {
      forall i ensures InhibitExpiry(i) in v.timers <==> HasInhibit(o.core.inhibits, i) {
        assert InhibitExpiry(i) in w.timers <==> HasInhibit(c.inhibits, i);
      }
    }
  }

  /** Losing a timer that nothing waits for leaves everything as it was. */
  lemma StaleFireKeeps(c: Core, id: TimerId, v: Effects, k: Context)
    requires BeforeFire(c, v, id, k) && !id.InhibitExpiry?
    requires id == SleepRetry ==> !c.pendingSleep
    requires id == GraceTimer ==> c.state != LongSleep(Grace)
    requires id == AwakeWindow ==> c.state != LongSleep(Armed) && c.state != LongSleep(Checking)
    ensures Sound(c, v, k)
  {
    hide CurrentStages, AutoModeOk, LowOk, TableOk, HasInhibit;
    var w := v.(timers := v.timers + {id});
    forall i ensures InhibitExpiry(i) in v.timers <==> HasInhibit(c.inhibits, i) {
      assert InhibitExpiry(i) in w.timers <==> HasInhibit(c.inhibits, i);
    }
  }

  lemma RetryKeeps(c: Core, v: Effects, k: Context)
    requires BeforeFire(c, v, SleepRetry, k)
    ensures var o := OnTimer(c, SleepRetry); Keeps(c, v, o, k, multiset{}) && KeepsPanel(c, v, o)
  {
    hide After, CurrentStages, AutoModeOk, LowOk, TrySleep;
    if c.pendingSleep {
      var c' := c.(pendingSleep := false);
      assert BeforeFire(c', v, SleepRetry, k) by { ModeFactsDepend(c, c'); }
      StaleFireKeeps(c', SleepRetry, v, k);
      TrySleepKeeps(c', false, true, v, k);
    } else {
      StaleFireKeeps(c, SleepRetry, v, k);
      NothingKeeps(c, v, k);
    }
  }

  lemma GraceOverKeeps(c: Core, v: Effects, k: Context)
    requires BeforeFire(c, v, GraceTimer, k)
    ensures var o := OnTimer(c, GraceTimer); Keeps(c, v, o, k, multiset{}) && KeepsPanel(c, v, o)
  {
    hide After, CurrentStages, AutoModeOk, LowOk, TableOk, Arm, HasInhibit;
    if c.state == LongSleep(Grace) {
      var w := v.(timers := v.timers + {GraceTimer});
      forall i ensures InhibitExpiry(i) in v.timers <==> HasInhibit(c.inhibits, i) {
        assert InhibitExpiry(i) in w.timers <==> HasInhibit(c.inhibits, i);
      }
      ArmKeeps(c, true, v, k);
    } else {
      StaleFireKeeps(c, GraceTimer, v, k);
      NothingKeeps(c, v, k);
    }
  }

  lemma WindowOverKeeps(c: Core, v: Effects, k: Context)
    requires BeforeFire(c, v, AwakeWindow, k)
    ensures var o := OnTimer(c, AwakeWindow); Keeps(c, v, o, k, multiset{}) && KeepsPanel(c, v, o)
  {
    hide After, CurrentStages, AutoModeOk, LowOk, TableOk, Arm, PowerIsBack, HasInhibit, CheckPower, BatteryCritical;
    var w := v.(timers := v.timers + {AwakeWindow});
    assert ExpiriesOk(c, v) by {
      forall i ensures InhibitExpiry(i) in v.timers <==> HasInhibit(c.inhibits, i) {
        assert InhibitExpiry(i) in w.timers <==> HasInhibit(c.inhibits, i);
      }
    }
    if c.state == LongSleep(Armed) {
      if c.ac {
        PowerIsBackKeeps(c, v, k);
      } else {
        ArmKeeps(c, false, v, k);
      }
    } else if c.state == LongSleep(Checking) {
      if c.ac || BatteryCritical(c) {
        CheckPowerKeeps(c, v, k);
      } else {
        ArmKeeps(c, false, v, k);
      }
    } else {
      StaleFireKeeps(c, AwakeWindow, v, k);
      NothingKeeps(c, v, k);
    }
  }

  lemma OnTimerKeeps(c: Core, id: TimerId, v: Effects, k: Context)
    requires BeforeFire(c, v, id, k)
    ensures Keeps(c, v, OnTimer(c, id), k, multiset{}) && KeepsPanel(c, v, OnTimer(c, id))
  {
    hide *;
    match id
    case SleepRetry => RetryKeeps(c, v, k);
    case InhibitExpiry(inhibit) => ExpiryKeeps(c, inhibit, v, k);
    case GraceTimer => GraceOverKeeps(c, v, k);
    case AwakeWindow => WindowOverKeeps(c, v, k);
  }

  // ------------------------------------------------------------------- power

  /** Ready, but power has moved and the mode has not followed yet. */
  ghost predicate ReadyButMode(c: Core, v: Effects, k: Context) {
    && CycleOk(c) && LowOk(c) && TableOk(c.inhibits, c.nextInhibitId)
    && TimersOk(c, v) && ExpiriesOk(c, v) && AlarmOk(c, v) && StagesOk(c, v) && v.pivots == []
  }

  lemma ReapplyKeeps(c: Core, v: Effects, k: Context)
    requires ReadyButMode(c, v, k)
    ensures var o := ReapplyAutoMode(c);
            && Ready(o.core, After(v, o.cmds), k)
            && o.core == c.(mode := o.core.mode)
            && After(v, o.cmds) == v.(stages := After(v, o.cmds).stages)
            && (WaitingOk(c, v, k) ==> WaitingOk(o.core, After(v, o.cmds), k))
  {
    hide After, CurrentStages, SelectAutoMode, ModeChanged, TableOk;
    ReapplyAutoModeEffect(c, v);
    SelectAutoModeFacts(c);
    LowTableDepend(c, ReapplyAutoMode(c).core);
  }

  lemma OnBatteryKeeps(c: Core, percent: nat, v: Effects, k: Context)
    requires Sound(c, v, k) && v.pivots == []
    ensures Keeps(c, v, OnBattery(c, percent), k, multiset{}) && KeepsPanel(c, v, OnBattery(c, percent))
  {
    hide After, TableOk, ReapplyAutoMode;
    var o := OnBattery(c, percent);
    var low := ComputeLow(c.config.auto.lowBatteryPercent, c.low, Some(percent));
    var c' := c.(battery := Some(percent), low := low);
    assert ReadyButMode(c', v, k);
    if low == c.low {
      NothingKeeps(c', v, k);
    } else {
      ReapplyKeeps(c', v, k);
    }
  }

  /** AC comes back during Grace. The panel is not touched, so this is the one
      step that may break its promise, and it does so exactly if `Strands`. */
  lemma GraceEndsKeeps(c: Core, v: Effects, k: Context)
    requires Sound(c, v, k) && v.pivots == []
    requires !c.ac && c.state == LongSleep(Grace)
    ensures var o := OnAcChanged(c, true);
            Keeps(c, v, o, k, multiset{}) && (PanelOk(o.core, After(v, o.cmds)) <==> !Dark(v))
  {
    hide After, ReapplyAutoMode, Steady;
    var c' := c.(ac := true, state := Active);
    var v' := v.(timers := v.timers - {GraceTimer});
    GraceEndsReady(c, v, k);
    ReapplyKeeps(c', v', k);
    var o := ReapplyAutoMode(c');
    var head := [Broadcast(PowerChange(true))] + [CancelTimer(GraceTimer)];
    AfterConcat(v, head, o.cmds);
    AfterConcat(v, [Broadcast(PowerChange(true))], [CancelTimer(GraceTimer)]);
    AfterOne(v, Broadcast(PowerChange(true)));
    AfterOne(v, CancelTimer(GraceTimer));
  }

  lemma GraceEndsReady(c: Core, v: Effects, k: Context)
    requires Sound(c, v, k) && v.pivots == [] && c.state == LongSleep(Grace)
    ensures ReadyButMode(c.(ac := true, state := Active), v.(timers := v.timers - {GraceTimer}), k)
  {
    hide TableOk, LowOk, AutoModeOk, CurrentStages, HasInhibit;
    var c' := c.(ac := true, state := Active);
    var v' := v.(timers := v.timers - {GraceTimer});
    assert ExpiriesOk(c', v') by { ExpiriesFrame(c, v, GraceTimer); }
    LowTableDepend(c, c');
    SameStages(c, c');
  }

  lemma SameStages(c: Core, d: Core)
    requires c.config == d.config && c.mode == d.mode
    ensures CurrentStages(c) == CurrentStages(d)
  {
  }

  lemma ExpiriesFrame(c: Core, v: Effects, id: TimerId)
    requires ExpiriesOk(c, v) && !id.InhibitExpiry?
    ensures ExpiriesOk(c, v.(timers := v.timers - {id})) && ExpiriesOk(c, v.(timers := v.timers + {id}))
  {
    hide HasInhibit;
    forall i
      ensures InhibitExpiry(i) in v.timers - {id} <==> HasInhibit(c.inhibits, i)
      ensures InhibitExpiry(i) in v.timers + {id} <==> HasInhibit(c.inhibits, i)
    {
      assert InhibitExpiry(i) in v.timers <==> HasInhibit(c.inhibits, i);
    }
  }

  lemma CheckingEndsKeeps(c: Core, v: Effects, k: Context)
    requires Sound(c, v, k) && v.pivots == []
    requires !c.ac && c.state == LongSleep(Checking)
    ensures var o := OnAcChanged(c, true); Keeps(c, v, o, k, multiset{}) && KeepsPanel(c, v, o)
  {
    hide After, TableOk, PowerIsBack, CurrentStages, AutoModeOk;
    var c' := c.(ac := true);
    var v' := v.(timers := v.timers - {AwakeWindow});
    assert ExpiriesOk(c', v') by { ExpiriesFrame(c, v, AwakeWindow); }
    LowTableDepend(c, c');
    PowerIsBackKeeps(c', v', k);
    var head := [Broadcast(PowerChange(true))] + [CancelTimer(AwakeWindow)];
    AfterConcat(v, head, PowerIsBack(c').cmds);
    AfterConcat(v, [Broadcast(PowerChange(true))], [CancelTimer(AwakeWindow)]);
    AfterOne(v, Broadcast(PowerChange(true)));
    AfterOne(v, CancelTimer(AwakeWindow));
  }

  predicate EntersGrace(c: Core, ac: bool) {
    !ac && c.state.IsAwake() && c.config.server.enabled && c.config.server.trigger == AcLost
  }

  /** The part of a power change that is common to all the other states. */
  lemma PowerMovesReady(c: Core, ac: bool, v: Effects, k: Context)
    requires Sound(c, v, k) && v.pivots == []
    requires !(ac && c.state == LongSleep(Grace))
    ensures var o := ReapplyAutoMode(c.(ac := ac));
            var v' := After(v, [Broadcast(PowerChange(ac))] + o.cmds);
            && Sound(o.core, v', k) && v'.pivots == [] && v' == v.(stages := v'.stages)
            && o.core == c.(ac := ac, mode := o.core.mode)
            && v' == After(v, o.cmds)
  {
    hide After, TableOk, ReapplyAutoMode, CurrentStages;
    var c' := c.(ac := ac);
    SameStages(c, c');
    LowTableDepend(c, c');
    ReapplyKeeps(c', v, k);
    AfterConcat(v, [Broadcast(PowerChange(ac))], ReapplyAutoMode(c').cmds);
    AfterOne(v, Broadcast(PowerChange(ac)));
  }

  lemma PowerMovesKeeps(c: Core, ac: bool, v: Effects, k: Context)
    requires Sound(c, v, k) && v.pivots == []
    requires c.ac != ac && !(ac && (c.state == LongSleep(Grace) || c.state == LongSleep(Checking)))
    ensures var o := OnAcChanged(c, ac); Keeps(c, v, o, k, multiset{}) && KeepsPanel(c, v, o)
  {
    hide After, ReapplyAutoMode, EnterGrace, Sound;
    PowerMovesReady(c, ac, v, k);
    var o := ReapplyAutoMode(c.(ac := ac));
    if EntersGrace(c, ac) {
      var said := [Broadcast(PowerChange(ac))] + o.cmds;
      var v1 := After(v, said);
      SoundIsReady(o.core, v1, k);
      EnterGraceKeeps(o.core, c.config.server.gracePeriod, v1, k);
      AfterConcat(v, said, EnterGrace(o.core, c.config.server.gracePeriod).cmds);
    }
  }

  lemma OnAcChangedKeeps(c: Core, ac: bool, v: Effects, k: Context)
    requires Sound(c, v, k) && v.pivots == []
    ensures var o := OnAcChanged(c, ac);
            && Keeps(c, v, o, k, multiset{})
            && (Strands(c, v, AcChanged(ac)) ==> !PanelOk(o.core, After(v, o.cmds)))
            && (!Strands(c, v, AcChanged(ac)) ==> KeepsPanel(c, v, o))
  {
    hide After, Sound, PanelOk;
    if c.ac == ac {
      NothingKeeps(c, v, k);
    } else if ac && c.state == LongSleep(Grace) {
      GraceEndsKeeps(c, v, k);
    } else if ac && c.state == LongSleep(Checking) {
      CheckingEndsKeeps(c, v, k);
    } else {
      PowerMovesKeeps(c, ac, v, k);
    }
  }

  lemma OnShutdownKeeps(c: Core, v: Effects, k: Context)
    requires Ready(c, v, k)
    ensures Keeps(c, v, OnShutdown(c), k, multiset{})
    ensures PanelOk(OnShutdown(c).core, After(v, OnShutdown(c).cmds))
  {
    hide After, CurrentStages, AutoModeOk, LowOk, TableOk, ExpiriesOk, Sound, PanelOk;
    var c' := c.(state := Active);
    ModeFactsDepend(c, c');
    ShutdownEffect(c, v);
    hide OnShutdown;
    var v' := After(v, OnShutdown(c).cmds);
    assert v.pivots + [Shutdown] == [Shutdown];
    assert ExpiriesOk(c', v') by { ExpiriesDepend(c, c', v, v'); }
    ActiveIsEasy(c', v', k);
    assert OnShutdown(c).core == c' by { ShutdownCore(c); }
  }

  lemma ShutdownCore(c: Core)
    ensures OnShutdown(c).core == c.(state := Active)
  {
  }

  // --------------------------------------------------------------------- ipc

  lemma ReplyKeeps(c: Core, v: Effects, o: Out, id: RequestId, r: Response, k: Context)
    requires Keeps(c, v, o, k, multiset{})
    ensures Keeps(c, v, Out(o.core, o.cmds + [Reply(id, r)]), k, multiset{id})
    ensures KeepsPanel(c, v, o) ==> KeepsPanel(c, v, Out(o.core, o.cmds + [Reply(id, r)]))
  {
    hide After, CurrentStages, AutoModeOk, LowOk, TableOk, CycleOk;
    var w := After(v, o.cmds);
    AfterConcat(v, o.cmds, [Reply(id, r)]);
    AfterOne(w, Reply(id, r));
    assert (w.answered + multiset{id}) + OwedBy(w.pivots) == (w.answered + OwedBy(w.pivots)) + multiset{id};
  }

  lemma OnlyReplyKeeps(c: Core, v: Effects, id: RequestId, r: Response, k: Context)
    requires Sound(c, v, k) && v.pivots == []
    ensures Keeps(c, v, Out(c, [Reply(id, r)]), k, multiset{id})
    ensures KeepsPanel(c, v, Out(c, [Reply(id, r)]))
  {
    hide *;
    NothingKeeps(c, v, k);
    ReplyKeeps(c, v, Out(c, []), id, r, k);
    assert [] + [Reply(id, r)] == [Reply(id, r)];
  }

  lemma OnSetModeKeeps(c: Core, id: RequestId, name: string, v: Effects, k: Context)
    requires Sound(c, v, k) && v.pivots == []
    ensures var o := OnSetMode(c, id, name); Keeps(c, v, o, k, multiset{id}) && KeepsPanel(c, v, o)
  {
    hide After, CurrentStages, TableOk, ModeChanged;
    var c' := if name == "auto" then c.(mode := Auto(AutoModeName(c))) else c.(mode := Manual(name));
    if name == "auto" || name in c.config.modes {
      LowTableDepend(c, c');
      ModeChangedEffect(c', v);
      var o := Out(c', ModeChanged(c'));
      assert Keeps(c, v, o, k, multiset{}) && KeepsPanel(c, v, o);
      ReplyKeeps(c, v, o, id, Done, k);
    } else {
      OnlyReplyKeeps(c, v, id, Refused(NoSuchMode), k);
    }
  }

  function PhaseTimer(phase: Phase): seq<Command> {
    match phase
    case Grace => [CancelTimer(GraceTimer)]
    case Armed | Checking => [CancelTimer(AwakeWindow)]
    case Asleep => []
  }

  lemma PhaseTimerEffect(c: Core, phase: Phase, v: Effects)
    requires ExpiriesOk(c, v)
    ensures var v' := After(v, PhaseTimer(phase)); v' == v.(timers := v'.timers) && ExpiriesOk(c, v')
  {
    hide After, ExpiriesOk;
    AfterOne(v, CancelTimer(GraceTimer));
    AfterOne(v, CancelTimer(AwakeWindow));
    ExpiriesFrame(c, v, GraceTimer);
    ExpiriesFrame(c, v, AwakeWindow);
    AfterNone(v);
  }

  lemma CancelCycleKeeps(c: Core, v: Effects, k: Context)
    requires Ready(c, v, k) && c.state.LongSleep?
    ensures var o := CancelCycle(c, c.state.phase); Keeps(c, v, o, k, multiset{}) && KeepsPanel(c, v, o)
  {
    hide After, LeaveCycle, CurrentStages, LowOk, TableOk, HasInhibit, PhaseTimer;
    var c' := c.(interrupted := false);
    LowTableDepend(c, c');
    PhaseTimerEffect(c, c.state.phase, v);
    assert CancelCycle(c, c.state.phase).cmds == PhaseTimer(c.state.phase) + LeaveCycle(c').cmds by {
      CancelCycleShape(c, c.state.phase);
    }
    var v' := After(v, PhaseTimer(c.state.phase));
    AfterConcat(v, PhaseTimer(c.state.phase), LeaveCycle(c').cmds);
    LeaveCycleKeeps(c', v', k);
  }

  lemma CancelCycleShape(c: Core, phase: Phase)
    ensures CancelCycle(c, phase).cmds == PhaseTimer(phase) + LeaveCycle(c.(interrupted := false)).cmds
  {
    hide LeaveCycle;
  }

  lemma OnLongSleepKeeps(c: Core, id: RequestId, cancel: bool, v: Effects, k: Context)
    requires Sound(c, v, k) && v.pivots == []
    ensures var o := OnLongSleep(c, id, cancel); Keeps(c, v, o, k, multiset{id}) && KeepsPanel(c, v, o)
  {
    hide After, Sound, PanelOk, CancelCycle, EnterGrace;
    SoundIsReady(c, v, k);
    if cancel && c.state.LongSleep? {
      CancelCycleKeeps(c, v, k);
      ReplyKeeps(c, v, CancelCycle(c, c.state.phase), id, Done, k);
    } else if !cancel && c.config.server.enabled && c.state.IsAwake() {
      EnterGraceKeeps(c, 0, v, k);
      ReplyKeeps(c, v, EnterGrace(c, 0), id, Done, k);
    } else {
      OnlyReplyKeeps(c, v, id, OnLongSleep(c, id, cancel).cmds[0].response, k);
    }
  }

  lemma OnInhibitKeeps(c: Core, id: RequestId, what: InhibitWhat, why: string, ttl: Duration, v: Effects, k: Context)
    requires Sound(c, v, k) && v.pivots == []
    ensures var o := OnInhibit(c, id, what, why, ttl); Keeps(c, v, o, k, multiset{id}) && KeepsPanel(c, v, o)
  {
    hide After, Sound, HasInhibit, PanelOk;
    var ttl' := Min(ttl, MAX_INHIBIT_TTL);
    if ttl' == 0 {
      OnlyReplyKeeps(c, v, id, Refused(ZeroTtl), k);
    } else {
      var i := Inhibit(c.nextInhibitId, what, why, ttl');
      var start := StartTimer(InhibitExpiry(i.id), ttl');
      var c' := c.(nextInhibitId := i.id + 1, inhibits := c.inhibits + [i]);
      AfterOne(v, start);
      PanelDepends(c, c', v, v.(timers := v.timers + {InhibitExpiry(i.id)}));
      TableGrows(c.inhibits, i);
      NewInhibitorKeeps(c, c', v, k, i);
      ReplyKeeps(c, v, Out(c', [start]), id, Inhibited(i.id), k);
    }
  }

  lemma TableGrows(inhibits: seq<Inhibit>, i: Inhibit)
    ensures forall j :: HasInhibit(inhibits + [i], j) <==> HasInhibit(inhibits, j) || j == i.id
  {
    assert forall x :: x in inhibits + [i] <==> x in inhibits || x == i;
    assert i in inhibits + [i];
  }

  lemma NewInhibitorKeeps(c: Core, c': Core, v: Effects, k: Context, i: Inhibit)
    requires Sound(c, v, k) && v.pivots == []
    requires i.id == c.nextInhibitId
    requires c' == c.(nextInhibitId := i.id + 1, inhibits := c.inhibits + [i])
    requires forall j :: HasInhibit(c'.inhibits, j) <==> HasInhibit(c.inhibits, j) || j == i.id
    ensures Sound(c', v.(timers := v.timers + {InhibitExpiry(i.id)}), k)
  {
    hide CurrentStages, AutoModeOk, LowOk, HasInhibit;
    ModeFactsDepend(c, c');
  }

  lemma OnUninhibitKeeps(c: Core, id: RequestId, inhibit: nat, v: Effects, k: Context)
    requires Sound(c, v, k) && v.pivots == []
    ensures var o := OnUninhibit(c, id, inhibit); Keeps(c, v, o, k, multiset{id}) && KeepsPanel(c, v, o)
  {
    hide After, CurrentStages, AutoModeOk, LowOk, TableOk, HasInhibit, RemoveInhibit;
    if HasInhibit(c.inhibits, inhibit) {
      var c' := c.(inhibits := RemoveInhibit(c.inhibits, inhibit));
      var cancel := CancelTimer(InhibitExpiry(inhibit));
      RemoveInhibitFacts(c.inhibits, inhibit, c.nextInhibitId);
      ModeFactsDepend(c, c');
      AfterOne(v, cancel);
      ReplyKeeps(c, v, Out(c', [cancel]), id, Done, k);
    } else {
      OnlyReplyKeeps(c, v, id, Refused(NoSuchInhibitor), k);
    }
  }

  lemma OnRequestSleepKeeps(c: Core, id: RequestId, force: bool, v: Effects, k: Context)
    requires Sound(c, v, k) && v.pivots == []
    ensures var o := OnRequestSleep(c, id, force); Keeps(c, v, o, k, multiset{id}) && KeepsPanel(c, v, o)
  {
    hide After, Sound, PanelOk, TrySleep, Blocked;
    SoundIsReady(c, v, k);
    if c.state.LongSleep? || (!force && Blocked(c)) {
      OnlyReplyKeeps(c, v, id, OnRequestSleep(c, id, force).cmds[0].response, k);
    } else {
      TrySleepKeeps(c, force, false, v, k);
      ReplyKeeps(c, v, TrySleep(c, force, false), id, Done, k);
    }
  }

  lemma RequestDimKeeps(c: Core, id: RequestId, v: Effects, k: Context)
    requires Sound(c, v, k) && v.pivots == []
    ensures var o := OnIpc(c, id, RequestDim); Keeps(c, v, o, k, multiset{id}) && KeepsPanel(c, v, o)
  {
    hide After, Sound, Keeps, KeepsPanel;
    if c.state == Active {
      DimKeeps(c, v, k);
      ReplyKeeps(c, v, Out(c.(state := Dimmed), [Dim(c.config.dimPercent)]), id, Done, k);
    } else {
      OnlyReplyKeeps(c, v, id, Done, k);
    }
  }

  lemma RequestScreenOffKeeps(c: Core, id: RequestId, v: Effects, k: Context)
    requires Sound(c, v, k) && v.pivots == []
    ensures var o := OnIpc(c, id, RequestScreen(false)); Keeps(c, v, o, k, multiset{id}) && KeepsPanel(c, v, o)
  {
    hide After, Sound, OnActivity, Keeps, KeepsPanel;
    if c.state == Active || c.state == Dimmed {
      ScreenOffKeeps(c, v, k);
      ReplyKeeps(c, v, Out(c.(state := ScreenOff), [Screen(false)]), id, Done, k);
    } else {
      OnlyReplyKeeps(c, v, id, Done, k);
    }
  }

  /** `undim` and `screen on` are activity. */
  lemma ActivityRequestKeeps(c: Core, id: RequestId, v: Effects, k: Context)
    requires Sound(c, v, k) && v.pivots == []
    ensures var o := Out(OnActivity(c).core, OnActivity(c).cmds + [Reply(id, Done)]);
            Keeps(c, v, o, k, multiset{id}) && KeepsPanel(c, v, o)
  {
    hide *;
    SoundIsReady(c, v, k);
    OnActivityKeeps(c, v, k);
    ReplyKeeps(c, v, OnActivity(c), id, Done, k);
  }

  lemma ReloadPivotKeeps(c: Core, replyTo: Option<RequestId>, v: Effects, k: Context)
    requires Sound(c, v, k) && v.pivots == []
    ensures var o := Out(c, [Reload(replyTo)]);
            && Keeps(c, v, o, k, if replyTo.Some? then multiset{replyTo.value} else multiset{})
            && KeepsPanel(c, v, o)
  {
    hide After, CurrentStages, AutoModeOk, LowOk, TableOk, CycleOk;
    AfterOne(v, Reload(replyTo));
  }

  lemma OnIpcKeeps(c: Core, id: RequestId, request: Request, v: Effects, k: Context)
    requires Sound(c, v, k) && v.pivots == []
    ensures var o := OnIpc(c, id, request); Keeps(c, v, o, k, multiset{id}) && KeepsPanel(c, v, o)
  {
    hide After, Sound, Keeps, KeepsPanel, OnActivity, OnSetMode, OnRequestSleep, OnLongSleep, OnInhibit, OnUninhibit;
    match request
    case Status => OnlyReplyKeeps(c, v, id, StatusData(c.state), k);
    case Modes => OnlyReplyKeeps(c, v, id, ModesData(c.mode), k);
    case SetMode(name) => OnSetModeKeeps(c, id, name, v, k);
    case RequestDim => RequestDimKeeps(c, id, v, k);
    case RequestUndim => ActivityRequestKeeps(c, id, v, k);
    case RequestScreen(on) =>
      ActivityRequestKeeps(c, id, v, k);
      RequestScreenOffKeeps(c, id, v, k);
    case RequestSleep(force) => OnRequestSleepKeeps(c, id, force, v, k);
    case RequestLongSleep(cancel) => OnLongSleepKeeps(c, id, cancel, v, k);
    case AddInhibit(what, why, ttl) => OnInhibitKeeps(c, id, what, why, ttl, v, k);
    case Uninhibit(inhibit) => OnUninhibitKeeps(c, id, inhibit, v, k);
    case RequestReload => ReloadPivotKeeps(c, Some(id), v, k);
    case Subscribe | Agent => OnlyReplyKeeps(c, v, id, Refused(NotForTheEngine), k);
  }

  // ---------------------------------------------------------------- dispatch

  /** When an event may arrive. A timer that goes off has just left the
      registry; `WakeScheduled` only answers a ScheduleWake. */
  ghost predicate Arrives(c: Core, v: Effects, e: Event, k: Context) {
    match e
    case TimerFired(id) => BeforeFire(c, v, id, k)
    case WakeScheduled(armed) =>
      && Ready(c, v, k) && c.state == LongSleep(Armed)
      && (armed ==> v.scheduled.Some? && v.scheduled == k.armedAt && v.live)
    case SleepFailed | SleepBlocked(_) => Ready(c, v, k) && (!Waiting(c) ==> Sound(c, v, k))
    case GoingDown | Resumed | ResumedByUser => Ready(c, v, k)
    case _ => Sound(c, v, k) && v.pivots == []
  }

  lemma FlagsKeep(c: Core, d: Core, v: Effects, k: Context)
    requires Sound(c, v, k) && v.pivots == []
    requires d == c.(idleConnected := d.idleConnected, hibernateAvailable := d.hibernateAvailable, external := d.external)
    ensures Keeps(c, v, Out(d, []), k, multiset{}) && KeepsPanel(c, v, Out(d, []))
  {
    hide CurrentStages, AutoModeOk, LowOk, TableOk;
    ModeFactsDepend(c, d);
  }

  lemma DispatchKeeps(c: Core, e: Event, v: Effects, k: Context)
    requires Arrives(c, v, e, k)
    ensures Keeps(c, v, Dispatch(c, e), k, OwedFor(e))
    ensures !Strands(c, v, e) ==> KeepsPanel(c, v, Dispatch(c, e))
    ensures Strands(c, v, e) ==> !PanelOk(Dispatch(c, e).core, After(v, Dispatch(c, e).cmds))
  {
    hide After, Sound, Steady, Keeps, PanelOk, BeforeFire, OnIdle, OnActivity, OnAcChanged, OnBattery, OnGoingDown,
         OnResumed, OnTimer, OnIpc, OnSleepBlocked, OnSleepFailed, OnWakeScheduled, OnShutdown;
    match e
    case Idle(stage) => OnIdleKeeps(c, stage, v, k);
    case Activity => SoundIsReady(c, v, k); OnActivityKeeps(c, v, k);
    case AcChanged(ac) => OnAcChangedKeeps(c, ac, v, k);
    case Battery(percent) => OnBatteryKeeps(c, percent, v, k);
    case GoingDown => OnGoingDownKeeps(c, v, k);
    case Resumed => OnResumedKeeps(c, false, v, k);
    case ResumedByUser => OnResumedKeeps(c, true, v, k);
    case TimerFired(id) => OnTimerKeeps(c, id, v, k);
    case Ipc(id, request) => OnIpcKeeps(c, id, request, v, k);
    case IdleBackendChanged(connected) => FlagsKeep(c, c.(idleConnected := connected), v, k);
    case HibernateAvailable(available) => FlagsKeep(c, c.(hibernateAvailable := available), v, k);
    case Inhibitors(list) => FlagsKeep(c, c.(external := list), v, k);
    case SleepBlocked(list) => OnSleepBlockedKeeps(c, list, v, k);
    case SleepFailed => OnSleepFailedKeeps(c, v, k);
    case WakeScheduled(armed) => OnWakeScheduledKeeps(c, armed, v, k);
    case ReloadRequested => ReloadPivotKeeps(c, None, v, k);
    case ShutdownRequested => SoundIsReady(c, v, k); OnShutdownKeeps(c, v, k);
  }

  // ------------------------------------------------------------------ handle

  /** The invariant of the engine and its queue: everything above, and the
      broadcasts chain up to the state the engine is in. */
  ghost predicate Good(c: Core, v: Effects, k: Context) {
    Sound(c, v, k) && v.chained && v.lastTo == c.state
  }

  lemma AnnounceKeeps(from: State, c: Core, v: Effects, k: Context)
    requires Sound(c, v, k) && v.chained && v.lastTo == from
    ensures var v' := After(v, Announce(from, c));
            && Good(c, v', k)
            && v'.answered == v.answered && v'.pivots == v.pivots
            && (PanelOk(c, v') <==> PanelOk(c, v))
  {
    hide After, CurrentStages, AutoModeOk, LowOk, TableOk, CycleOk, Announce;
    AnnounceEffect(from, c, v);
  }

  /** One event: the invariant, the debt of replies and, except for the one
      stranding step, the panel. */
  lemma HandleKeeps(c: Core, e: Event, v: Effects, k: Context)
    requires Arrives(c, v, e, k) && v.chained && v.lastTo == c.state
    ensures var o := Handle(c, e);
            var v' := After(v, o.cmds);
            && Good(o.core, v', k)
            && v'.answered + OwedBy(v'.pivots) == v.answered + OwedFor(e)
            && (PanelOk(c, v) && !Strands(c, v, e) ==> PanelOk(o.core, v'))
            && (Strands(c, v, e) ==> !PanelOk(o.core, v'))
  {
    hide After, Sound, PanelOk, Arrives, Dispatch, Announce, Strands;
    DispatchKeeps(c, e, v, k);
    var o := Dispatch(c, e);
    AfterConcat(v, o.cmds, Announce(c.state, o.core));
    AnnounceKeeps(c.state, o.core, After(v, o.cmds), k);
  }

  // ------------------------------------------------------ reload and startup

  lemma SetConfigKeeps(c: Core, config: Config, v: Effects, k: Context)
    requires Sound(c, v, k) && v.pivots == []
    ensures var o := SetConfig(c, config); Keeps(c, v, o, k, multiset{}) && KeepsPanel(c, v, o)
  {
    hide After, TableOk, ModeCommands, ExpiriesOk, LowOk, AutoModeOk, CurrentStages, PanelOk;
    var d := SetConfig(c, config).core;
    ModeCommandsEffect(d, v);
    ConfigModeOk(c, config);
    ExpiriesDepend(c, d, v, v.(stages := WantedStages(d)));
    PanelDepends(c, d, v, v.(stages := WantedStages(d)));
  }

  lemma ConfigModeOk(c: Core, config: Config)
    ensures var d := SetConfig(c, config).core; LowOk(d) && AutoModeOk(d)
  {
    hide ModeCommands;
  }
}
