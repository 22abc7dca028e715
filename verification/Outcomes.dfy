/** What exactly an event does to the things whose history matters: requests to
    sleep, the way through the cycle, its timers, the idle stages, the panel. */
module Outcomes {
  import opened Types
  import opened Transition
  import opened Effects
  import opened Invariants
  import opened Discipline
  import opened Choices

  // ------------------------------------------------------ requests to sleep

  ghost predicate Sleeps(q: seq<Command>) {
    exists cmd :: cmd in q && cmd.GoToSleep?
  }

  /** Outside the cycle: the events that end in a request to logind. */
  predicate Asks(c: Core, e: Event) {
    match e
    case Idle(stage) => stage == SleepStage && c.state.IsAwake() && !Holds(c.inhibits, InhibitIdle) && !Hindered(c)
    case Ipc(_, request) => request.RequestSleep? && (request.force || !Hindered(c))
    case TimerFired(id) => id == SleepRetry && c.pendingSleep && !Hindered(c)
    case _ => false
  }

  lemma TrySleepAsks(c: Core, force: bool, armRetry: bool)
    ensures var o := TrySleep(c, force, armRetry);
            if force || !Hindered(c) then o.cmds == [GoToSleep(c.config.sleep.how, force)] && o.core.state == Suspending
            else !Sleeps(o.cmds) && o.core.state == c.state && o.core.pendingSleep == (c.pendingSleep || (armRetry && c.config.sleep.retry != 0))
  {
    hide Blocked, Hindered;
    Conditions(c);
  }

  lemma AskingSleeps(c: Core, e: Event)
    requires !c.state.LongSleep? && Asks(c, e)
    ensures Sleeps(Handle(c, e).cmds) && Handle(c, e).core.state == Suspending
  {
    hide Blocked, Hindered, Holds, IdleInhibited, TrySleep, Announce, Sleeps;
    Conditions(c);
    var force := e.Ipc? && e.request.force;
    var d := if e.TimerFired? then c.(pendingSleep := false) else c;
    HinderedDepends(c, d);
    TrySleepAsks(d, force, !e.Ipc?);
    var g := GoToSleep(c.config.sleep.how, force);
    assert TrySleep(d, force, !e.Ipc?).cmds == [g];
    assert g in Handle(c, e).cmds;
    SleepsBecause(Handle(c, e).cmds, g);
  }

  lemma SleepsBecause(q: seq<Command>, g: Command)
    requires g in q && g.GoToSleep?
    ensures Sleeps(q)
  {
  }

  /** A suspend is asked of logind outside the cycle on exactly these events, in
      any state there is: also while asleep or while one is under way. */
  lemma SleepsExactly(c: Core, e: Event)
    requires !c.state.LongSleep? && NoRetryInCycle(c)
    ensures Sleeps(Handle(c, e).cmds) <==> Asks(c, e)
  {
    hide Handle, Blocked, IdleInhibited;
    if Asks(c, e) {
      AskingSleeps(c, e);
    }
    EveryCommandLicensed(c, e);
    if cmd :| cmd in Handle(c, e).cmds && cmd.GoToSleep? {
      assert Licensed(c.state, e, Handle(c, e).core, cmd);
      assert MayAsk(c.state, e, cmd.force);
      LicensedAsks(c, e, cmd);
    }
  }

  lemma LicensedAsks(c: Core, e: Event, cmd: Command)
    requires !c.state.LongSleep? && cmd in Handle(c, e).cmds && cmd.GoToSleep? && MayAsk(c.state, e, cmd.force)
    ensures Asks(c, e)
  {
    hide Blocked, Hindered, Holds, IdleInhibited, TrySleep, Announce, Sleeps;
    Conditions(c);
    NoSleepAnnounced(c.state, Handle(c, e).core);
    match e
    case Idle(_) =>
      TrySleepAsks(c, false, true);
      if Hindered(c) {
        NotAmong(TrySleep(c, false, true).cmds, cmd);
      }
    case Ipc(_, _) =>
    case TimerFired(_) =>
      var d := c.(pendingSleep := false);
      HinderedDepends(c, d);
      TrySleepAsks(d, false, true);
      if Hindered(d) {
        NotAmong(TrySleep(d, false, true).cmds, cmd);
      }
  }

  lemma NotAmong(q: seq<Command>, g: Command)
    requires !Sleeps(q) && g.GoToSleep?
    ensures g !in q
  {
  }

  lemma NoSleepAnnounced(from: State, c: Core)
    ensures forall cmd :: cmd in Announce(from, c) ==> cmd.Broadcast?
  {
  }

  // ----------------------------------------------------- the state, by table

  function Failed(c: Core): State {
    if c.sleepFailures + 1 >= MAX_SLEEP_FAILURES then Active else c.state
  }

  function Woken(c: Core): State {
    match c.state
    case Dimmed | ScreenOff | Suspending | LongSleep(Checking) => Active
    case LongSleep(Armed) => Failed(c)
    case _ => c.state
  }

  function NextOnIdle(c: Core, stage: Stage): State {
    if Holds(c.inhibits, InhibitIdle) then c.state
    else match stage
      case DimStage => if c.state == Active then Dimmed else c.state
      case ScreenOffStage => if c.state == Active || c.state == Dimmed then ScreenOff else c.state
      case SleepStage => if c.state.IsAwake() && !Hindered(c) then Suspending else c.state
  }

  function NextOnTimer(c: Core, id: TimerId): State {
    match id
    case SleepRetry => if c.pendingSleep && !Hindered(c) then Suspending else c.state
    case GraceTimer => if c.state == LongSleep(Grace) then LongSleep(Armed) else c.state
    case AwakeWindow =>
      if c.state == LongSleep(Armed) || c.state == LongSleep(Checking) then
        if c.ac then Active
        else if c.state == LongSleep(Checking) && OutOfPower(c) then LongSleep(Checking)
        else LongSleep(Armed)
      else c.state
    case InhibitExpiry(_) => c.state
  }

  function NextOnAc(c: Core, ac: bool): State {
    if ac == c.ac then c.state
    else if ac then if c.state == LongSleep(Grace) || c.state == LongSleep(Checking) then Active else c.state
    else if c.state.IsAwake() && c.config.server.enabled && c.config.server.trigger == AcLost then LongSleep(Grace)
    else c.state
  }

  function NextOnRequest(c: Core, request: Request): State {
    match request
    case RequestDim => if c.state == Active then Dimmed else c.state
    case RequestUndim => Woken(c)
    case RequestScreen(on) =>
      if on then Woken(c) else if c.state == Active || c.state == Dimmed then ScreenOff else c.state
    case RequestSleep(force) => if !c.state.LongSleep? && (force || !Hindered(c)) then Suspending else c.state
    case RequestLongSleep(cancel) =>
      if cancel then if c.state.LongSleep? then Active else c.state
      else if c.state.IsAwake() && c.config.server.enabled then LongSleep(Grace)
      else c.state
    case _ => c.state
  }

  /** The transition table, event by event. */
  function NextState(c: Core, e: Event): State {
    match e
    case Idle(stage) => NextOnIdle(c, stage)
    case Activity => Woken(c)
    case AcChanged(ac) => NextOnAc(c, ac)
    case GoingDown => if c.state.LongSleep? then LongSleep(Asleep) else Sleeping
    case Resumed => if c.state.LongSleep? && !c.ac then LongSleep(Checking) else Active
    case ResumedByUser | ShutdownRequested => Active
    case TimerFired(id) => NextOnTimer(c, id)
    case Ipc(_, request) => NextOnRequest(c, request)
    case SleepBlocked(_) =>
      if c.state == Suspending then c.suspendFrom else if c.state == LongSleep(Armed) then Failed(c) else c.state
    case SleepFailed =>
      if c.state == Suspending then Active else if c.state == LongSleep(Armed) then Failed(c) else c.state
    case WakeScheduled(armed) =>
      if c.state != LongSleep(Armed) then c.state
      else if armed && c.ac then Active
      else if !armed || Hindered(c) then Failed(c)
      else c.state
    case _ => c.state
  }

  lemma FailureGoes(c: Core)
    requires c.state == LongSleep(Armed)
    ensures CycleFailure(c).core.state == Failed(c)
  {
    hide LeaveCycle;
    LeavesToActive(c.(sleepFailures := c.sleepFailures + 1));
  }

  lemma ActivityGoes(c: Core)
    ensures OnActivity(c).core.state == Woken(c)
  {
    hide LeaveCycle, CycleFailure;
    if c.state == LongSleep(Armed) {
      FailureGoes(c.(pendingSleep := false));
    }
    LeavesToActive(c.(pendingSleep := false, interrupted := true));
  }

  lemma CheckGoes(c: Core)
    ensures CheckPower(c).core.state == if c.ac then Active else LongSleep(Checking)
  {
    hide PowerIsBack, Critically;
    LeavesToActive(c);
  }

  lemma TimerGoes(c: Core, id: TimerId)
    requires NoRetryInCycle(c)
    ensures OnTimer(c, id).core.state == NextOnTimer(c, id)
  {
    match id
    case SleepRetry => RetryGoes(c);
    case AwakeWindow => WindowGoes(c);
    case _ => hide RemoveInhibit;
  }

  lemma RetryGoes(c: Core)
    requires NoRetryInCycle(c)
    ensures OnTimer(c, SleepRetry).core.state == NextOnTimer(c, SleepRetry)
  {
    hide TrySleep, Hindered;
    HinderedDepends(c, c.(pendingSleep := false));
    TrySleepAsks(c.(pendingSleep := false), false, true);
  }

  lemma WindowGoes(c: Core)
    ensures OnTimer(c, AwakeWindow).core.state == NextOnTimer(c, AwakeWindow)
  {
    hide CheckPower, PowerIsBack, BatteryCritical, Blocked, Hindered, OutOfPower;
    Conditions(c);
    LeavesToActive(c);
    CheckGoes(c);
  }

  lemma AcGoes(c: Core, ac: bool)
    ensures OnAcChanged(c, ac).core.state == NextOnAc(c, ac)
  {
    hide PowerIsBack, ReapplyAutoMode, EnterGrace;
    var c' := c.(ac := ac);
    LeavesToActive(c');
    ReapplyLicensed(c.state, AcChanged(ac), c');
    ReapplyLicensed(c.state, AcChanged(ac), c'.(state := Active));
    EnterGraceCounts(ReapplyAutoMode(c').core, c.config.server.gracePeriod);
  }

  lemma IdleGoes(c: Core, stage: Stage)
    ensures OnIdle(c, stage).core.state == NextOnIdle(c, stage)
  {
    hide TrySleep, IdleInhibited, Blocked, Hindered, Holds;
    Conditions(c);
    TrySleepAsks(c, false, true);
  }

  lemma LongSleepRequestGoes(c: Core, id: RequestId, cancel: bool)
    ensures OnLongSleep(c, id, cancel).core.state == NextOnRequest(c, RequestLongSleep(cancel))
  {
    hide LeaveCycle, EnterGrace, Blocked;
    LeavesToActive(c.(interrupted := false));
    EnterGraceCounts(c, 0);
  }

  lemma TableRequestGoes(c: Core, id: RequestId, request: Request)
    requires request.SetMode? || request.AddInhibit? || request.Uninhibit?
    ensures OnIpc(c, id, request).core.state == c.state
  {
    hide ModeChanged, AutoModeName, RemoveInhibit, HasInhibit;
  }

  lemma RequestGoes(c: Core, id: RequestId, request: Request)
    ensures OnIpc(c, id, request).core.state == NextOnRequest(c, request)
  {
    hide OnActivity, OnLongSleep, OnSetMode, OnInhibit, OnUninhibit, TrySleep, Blocked, Hindered, Woken;
    Conditions(c);
    match request
    case RequestUndim => ActivityGoes(c);
    case RequestScreen(_) => ActivityGoes(c);
    case RequestSleep(force) => TrySleepAsks(c, force, false);
    case RequestLongSleep(cancel) => LongSleepRequestGoes(c, id, cancel);
    case SetMode(_) => TableRequestGoes(c, id, request);
    case AddInhibit(_, _, _) => TableRequestGoes(c, id, request);
    case Uninhibit(_) => TableRequestGoes(c, id, request);
    case _ =>
  }

  lemma AnswerGoes(c: Core, e: Event)
    requires e.SleepBlocked? || e.SleepFailed? || e.WakeScheduled?
    ensures Dispatch(c, e).core.state == NextState(c, e)
  {
    hide CycleFailure, OnActivity, PowerIsBack, Blocked, Hindered;
    Conditions(c);
    if c.state == LongSleep(Armed) {
      FailureGoes(c);
      if e.SleepBlocked? {
        FailureGoes(c.(external := e.list));
      }
    }
    ActivityGoes(c);
    LeavesToActive(c);
  }

  lemma ResumedGoes(c: Core, byUser: bool)
    ensures OnResumed(c, byUser).core.state == NextState(c, if byUser then ResumedByUser else Resumed)
  {
    hide CheckPower, LeaveCycle;
    CheckGoes(c.(pendingSleep := false));
    LeavesToActive(c.(pendingSleep := false, interrupted := true));
  }

  /** The engine follows the table, for every event. */
  lemma FollowsTheTable(c: Core, e: Event)
    requires NoRetryInCycle(c)
    ensures Handle(c, e).core.state == NextState(c, e)
  {
    hide NextOnIdle, NextOnTimer, NextOnAc, NextOnRequest, Woken, Failed, Announce, OnIdle, OnActivity, OnAcChanged, OnTimer, OnIpc,
         OnResumed, OnSleepBlocked, OnSleepFailed, OnWakeScheduled, OnBattery, Blocked, NoRetryInCycle;
    match e
    case Idle(stage) => IdleGoes(c, stage);
    case Activity => ActivityGoes(c);
    case AcChanged(ac) => AcGoes(c, ac);
    case Battery(percent) => BatteryStays(c, percent);
    case Resumed => ResumedGoes(c, false);
    case ResumedByUser => ResumedGoes(c, true);
    case TimerFired(id) => TimerGoes(c, id);
    case Ipc(id, request) => RequestGoes(c, id, request);
    case SleepBlocked(_) => AnswerGoes(c, e);
    case SleepFailed => AnswerGoes(c, e);
    case WakeScheduled(_) => AnswerGoes(c, e);
    case _ =>
  }

  lemma BatteryStays(c: Core, percent: nat)
    ensures OnBattery(c, percent).core.state == c.state
  {
    hide ReapplyAutoMode, ComputeLow;
    ReapplyLicensed(c.state, Battery(percent), OnBatteryReading(c, percent));
  }

  // ----------------------------------------------- a suspend under way

  /** The events that end `Suspending` whatever it was entered from. */
  predicate Ends(e: Event) {
    match e
    case Activity | SleepFailed | GoingDown | Resumed | ResumedByUser | ShutdownRequested => true
    case Ipc(_, request) => request == RequestUndim || request == RequestScreen(true)
    case _ => false
  }

  /** Whether a retry is pending after an event that leaves it `Suspending` and
      asks for nothing. */
  predicate RetryPending(c: Core, e: Event) {
    match e
    case SleepBlocked(_) => c.pendingSleep || c.config.sleep.retry != 0
    case TimerFired(id) => c.pendingSleep && (id == SleepRetry ==> c.config.sleep.retry != 0)
    case _ => c.pendingSleep
  }

  lemma SuspendingRetry(c: Core, e: Event)
    requires c.state == Suspending && !Ends(e) && (e.SleepBlocked? ==> c.suspendFrom == Suspending) && !Asks(c, e)
    ensures Handle(c, e).core.pendingSleep == RetryPending(c, e)
  {
    hide OnTimer, OnIpc, OnAcChanged, OnBattery, OnActivity, OnIdle, Asks, Announce, RetryPending;
    match e
    case TimerFired(id) => SuspendingTimer(c, id);
    case Ipc(id, request) => SuspendingRequest(c, id, request);
    case AcChanged(ac) => SuspendingPower(c, ac, 0);
    case Battery(percent) => SuspendingPower(c, false, percent);
    case _ => SuspendingQuiet(c, e);
  }

  lemma SuspendingTimer(c: Core, id: TimerId)
    requires c.state == Suspending && !Asks(c, TimerFired(id))
    ensures OnTimer(c, id).core.pendingSleep == RetryPending(c, TimerFired(id))
  {
    hide Blocked, Hindered, RemoveInhibit, TrySleep;
    Conditions(c);
    HinderedDepends(c, c.(pendingSleep := false));
    TrySleepAsks(c.(pendingSleep := false), false, true);
  }

  lemma SuspendingPower(c: Core, ac: bool, percent: nat)
    requires c.state == Suspending
    ensures OnAcChanged(c, ac).core.pendingSleep == c.pendingSleep == RetryPending(c, AcChanged(ac))
    ensures OnBattery(c, percent).core.pendingSleep == c.pendingSleep == RetryPending(c, Battery(percent))
  {
    hide ReapplyAutoMode, ComputeLow;
    ReapplyLicensed(c.state, AcChanged(ac), c.(ac := ac));
    ReapplyLicensed(c.state, Battery(percent), OnBatteryReading(c, percent));
  }

  lemma SuspendingQuiet(c: Core, e: Event)
    requires c.state == Suspending && !Ends(e) && (e.SleepBlocked? ==> c.suspendFrom == Suspending)
    requires !e.TimerFired? && !e.Ipc? && !e.AcChanged? && !e.Battery?
    ensures Dispatch(c, e).core.pendingSleep == RetryPending(c, e)
  {
    hide IdleInhibited, OnSleepBlocked, TrySleep;
    if e.SleepBlocked? {
      SuspendingRefused(c, e.list);
    }
  }

  lemma SuspendingRefused(c: Core, list: seq<Inhibitor>)
    requires c.state == Suspending
    ensures OnSleepBlocked(c, list).core.pendingSleep == RetryPending(c, SleepBlocked(list))
  {
  }

  lemma SuspendingRequest(c: Core, id: RequestId, request: Request)
    requires c.state == Suspending && !Ends(Ipc(id, request)) && !Asks(c, Ipc(id, request))
    ensures OnIpc(c, id, request).core.pendingSleep == c.pendingSleep == RetryPending(c, Ipc(id, request))
  {
    hide Blocked, Hindered, RemoveInhibit, HasInhibit, TrySleep, OnActivity, ModeChanged, AutoModeName;
    Conditions(c);
    if request.RequestSleep? {
      TrySleepAsks(c, request.force, false);
    }
  }

  /** `Suspending` is entered together with a request, and ends on `Ends` or by
      a refusal that goes back to another state. */
  lemma SuspendingExactly(c: Core, e: Event)
    requires NoRetryInCycle(c)
    ensures var d := Handle(c, e).core;
            && (c.state == Suspending ==> (d.state == Suspending <==> !Ends(e) && (e.SleepBlocked? ==> c.suspendFrom == Suspending)))
            && (c.state != Suspending && d.state == Suspending ==> !c.state.LongSleep? && Asks(c, e))
  {
    hide Handle, Blocked, IdleInhibited, BatteryCritical;
    FollowsTheTable(c, e);
  }

  // -------------------------------------------------------- the idle stages

  ghost predicate SendsStages(q: seq<Command>) {
    exists s :: ReplaceIdleStages(s) in q
  }

  lemma {:induction false} StagesAfter(v: Effects, q: seq<Command>, s: Stages)
    requires forall t :: ReplaceIdleStages(t) in q ==> t == s
    ensures After(v, q).stages == if SendsStages(q) then s else v.stages
    decreases |q|
  {
    if q != [] {
      assert forall cmd :: cmd in q <==> cmd == q[0] || cmd in q[1..];
      StagesAfter(Apply(v, q[0]), q[1..], s);
      if SendsStages(q) && !q[0].ReplaceIdleStages? {
        var t :| ReplaceIdleStages(t) in q;
        assert ReplaceIdleStages(t) in q[1..];
      }
      if SendsStages(q[1..]) {
        var t :| ReplaceIdleStages(t) in q[1..];
        assert ReplaceIdleStages(t) in q;
      }
      if q[0].ReplaceIdleStages? {
        assert ReplaceIdleStages(q[0].stages) in q;
      }
    }
  }

  /** Past Grace and staying there, only "off" is sent. */
  lemma OffPastGrace(c: Core, e: Event, v: Effects)
    requires NoRetryInCycle(c) && Handle(c, e).core.state.PastGrace()
    ensures var q := Handle(c, e).cmds; After(v, q).stages == if SendsStages(q) then NO_STAGES else v.stages
  {
    hide Handle, After;
    EveryCommandLicensed(c, e);
    var o := Handle(c, e);
    forall t | ReplaceIdleStages(t) in o.cmds ensures t == NO_STAGES {
      assert Licensed(c.state, e, o.core, ReplaceIdleStages(t));
    }
    StagesAfter(v, o.cmds, NO_STAGES);
  }

  /** Grace is the only way past Grace, by its timer, a suspend or a resume. */
  lemma PastGraceExactly(c: Core, e: Event)
    requires NoRetryInCycle(c) && !c.state.PastGrace()
    ensures Handle(c, e).core.state.PastGrace() <==>
              c.state == LongSleep(Grace) && (e == TimerFired(GraceTimer) || e == GoingDown || (e == Resumed && !c.ac))
  {
    hide Handle, Blocked, IdleInhibited, BatteryCritical;
    FollowsTheTable(c, e);
  }

  /** Only the timer says so to the agent. */
  lemma GraceEndsSilently(c: Core, e: Event)
    requires c.state == LongSleep(Grace)
    ensures e == TimerFired(GraceTimer) ==> SendsStages(Handle(c, e).cmds)
    ensures e == GoingDown || (e == Resumed && !c.ac) ==> !SendsStages(Handle(c, e).cmds)
  {
    if e == TimerFired(GraceTimer) {
      assert Handle(c, e).cmds[0] == ReplaceIdleStages(NO_STAGES);
    }
  }

  // ------------------------------------------------------ the cycle's timers

  predicate CycleTimer(id: TimerId) {
    id == AwakeWindow || id == GraceTimer
  }

  /** The events that take back a timer of the cycle. */
  predicate TakesBack(c: Core, e: Event, id: TimerId) {
    if id == GraceTimer then
      c.state == LongSleep(Grace) && ((e == AcChanged(true) && !c.ac) || (e.Ipc? && e.request == RequestLongSleep(true)))
    else
      || (c.state == LongSleep(Checking)
          && (e == Activity || (e.Ipc? && (e.request == RequestUndim || e.request == RequestScreen(true)))
              || (e == AcChanged(true) && !c.ac)))
      || ((c.state == LongSleep(Armed) || c.state == LongSleep(Checking)) && e.Ipc? && e.request == RequestLongSleep(true))
  }

  /** No cancellation of a cycle timer in here. */
  ghost predicate Spares(q: seq<Command>) {
    CancelTimer(AwakeWindow) !in q && CancelTimer(GraceTimer) !in q
  }

  lemma ModesSpare(c: Core)
    ensures Spares(ModeCommands(c)) && Spares(ModeChanged(c)) && Spares(ReapplyAutoMode(c).cmds)
  {
    hide WantedStages, SelectAutoMode;
  }

  lemma LeavingSpares(c: Core)
    ensures Spares(LeaveCycle(c).cmds) && Spares(PowerIsBack(c).cmds)
  {
    hide ModeCommands, SelectAutoMode;
    ModesSpare(LeaveCycle(c).core);
  }

  lemma FailingSpares(c: Core)
    ensures Spares(CycleFailure(c).cmds)
  {
    hide LeaveCycle;
    LeavingSpares(c.(sleepFailures := c.sleepFailures + 1));
  }

  lemma CheckSpares(c: Core)
    ensures Spares(CheckPower(c).cmds)
  {
    hide PowerIsBack;
    LeavingSpares(c);
  }

  lemma SmallSpare(c: Core, force: bool, armRetry: bool, delay: Duration, first: bool)
    ensures Spares(TrySleep(c, force, armRetry).cmds) && Spares(EnterGrace(c, delay).cmds) && Spares(Arm(c, first).cmds)
    ensures Spares(CancelPendingSleep(c).cmds)
  {
    hide Blocked;
  }

  lemma ActivityTakes(c: Core, id: TimerId)
    requires CycleTimer(id)
    ensures CancelTimer(id) in OnActivity(c).cmds <==> id == AwakeWindow && c.state == LongSleep(Checking)
  {
    hide LeaveCycle, CycleFailure;
    var d := c.(pendingSleep := false);
    FailingSpares(d);
    LeavingSpares(d.(interrupted := true));
  }

  lemma TimerTakes(c: Core, timer: TimerId)
    ensures Spares(OnTimer(c, timer).cmds)
  {
    hide CheckPower, PowerIsBack, TrySleep, Arm, BatteryCritical, RemoveInhibit;
    LeavingSpares(c);
    CheckSpares(c);
    SmallSpare(c, false, true, 0, timer == GraceTimer);
    SmallSpare(c.(pendingSleep := false), false, true, 0, true);
  }

  lemma AcTakes(c: Core, ac: bool, id: TimerId)
    requires CycleTimer(id)
    ensures CancelTimer(id) in OnAcChanged(c, ac).cmds <==> TakesBack(c, AcChanged(ac), id)
  {
    hide PowerIsBack, ReapplyAutoMode, EnterGrace;
    var c' := c.(ac := ac);
    LeavingSpares(c');
    ModesSpare(c');
    ModesSpare(c'.(state := Active));
    SmallSpare(ReapplyAutoMode(c').core, false, false, c.config.server.gracePeriod, false);
  }

  lemma LongSleepRequestTakes(c: Core, id: RequestId, cancel: bool, timer: TimerId)
    requires CycleTimer(timer)
    ensures CancelTimer(timer) in OnLongSleep(c, id, cancel).cmds <==> TakesBack(c, Ipc(id, RequestLongSleep(cancel)), timer)
  {
    hide LeaveCycle, EnterGrace;
    LeavingSpares(c.(interrupted := false));
    SmallSpare(c, false, false, 0, false);
  }

  lemma OtherRequestSpares(c: Core, id: RequestId, request: Request)
    requires !request.RequestUndim? && !request.RequestScreen? && !request.RequestLongSleep?
    ensures Spares(OnIpc(c, id, request).cmds)
  {
    hide TrySleep, Blocked, ModeChanged, AutoModeName, HasInhibit, RemoveInhibit;
    match request
    case SetMode(name) => ModesSpare(OnSetMode(c, id, name).core);
    case RequestSleep(force) => SmallSpare(c, force, false, 0, false);
    case _ =>
  }

  lemma RequestTakes(c: Core, id: RequestId, request: Request, timer: TimerId)
    requires CycleTimer(timer)
    ensures CancelTimer(timer) in OnIpc(c, id, request).cmds <==> TakesBack(c, Ipc(id, request), timer)
  {
    hide OnActivity, OnLongSleep;
    if request.RequestUndim? || request.RequestScreen? {
      hide OnSetMode;
      ActivityTakes(c, timer);
    } else if request.RequestLongSleep? {
      LongSleepRequestTakes(c, id, request.cancel, timer);
    } else {
      OtherRequestSpares(c, id, request);
    }
  }

  lemma AnswerSpares(c: Core, e: Event)
    requires e.SleepBlocked? || e.SleepFailed? || e.WakeScheduled?
    ensures Spares(Dispatch(c, e).cmds)
  {
    hide CycleFailure, OnActivity, PowerIsBack, Blocked, ArmSleepRetry;
    FailingSpares(c);
    if e.SleepBlocked? {
      FailingSpares(c.(external := e.list));
      RetrySpares(c.(external := e.list, state := c.suspendFrom));
    }
    ActivityTakes(c, AwakeWindow);
    ActivityTakes(c, GraceTimer);
    LeavingSpares(c);
  }

  lemma RetrySpares(c: Core)
    ensures Spares(ArmSleepRetry(c).cmds)
  {
  }

  lemma ResumedSpares(c: Core, byUser: bool)
    ensures Spares(OnResumed(c, byUser).cmds)
  {
    hide CheckPower, LeaveCycle, CurrentStages;
    CheckSpares(c.(pendingSleep := false));
    LeavingSpares(c.(pendingSleep := false, interrupted := true));
  }

  /** A timer of the cycle is cancelled on exactly these events. */
  lemma TakesBackExactly(c: Core, e: Event, id: TimerId)
    requires CycleTimer(id)
    ensures CancelTimer(id) in Handle(c, e).cmds <==> TakesBack(c, e, id)
  {
    hide OnActivity, OnAcChanged, OnTimer, OnIpc, OnResumed, OnSleepBlocked, OnSleepFailed, OnWakeScheduled, TrySleep,
         IdleInhibited, ReapplyAutoMode, ComputeLow, Announce;
    NoSleepAnnounced(c.state, Handle(c, e).core);
    match e
    case Idle(_) => SmallSpare(c, false, true, 0, false);
    case Activity => ActivityTakes(c, id);
    case AcChanged(ac) => AcTakes(c, ac, id);
    case Battery(percent) => ModesSpare(OnBatteryReading(c, percent));
    case Resumed => ResumedSpares(c, false);
    case ResumedByUser => ResumedSpares(c, true);
    case TimerFired(timer) => TimerTakes(c, timer);
    case Ipc(request, what) => RequestTakes(c, request, what, id);
    case SleepBlocked(_) => AnswerSpares(c, e);
    case SleepFailed => AnswerSpares(c, e);
    case WakeScheduled(_) => AnswerSpares(c, e);
    case _ =>
  }

  ghost predicate Starts(q: seq<Command>, id: TimerId) {
    exists d :: StartTimer(id, d) in q
  }

  lemma {:induction false} TimerAfter(v: Effects, q: seq<Command>, id: TimerId)
    requires !Starts(q, id)
    ensures id in After(v, q).timers <==> id in v.timers && CancelTimer(id) !in q
    decreases |q|
  {
    if q != [] {
      assert forall cmd :: cmd in q <==> cmd == q[0] || cmd in q[1..];
      forall d ensures q[0] != StartTimer(id, d) {
        assert q[0] == StartTimer(id, d) ==> StartTimer(id, d) in q;
      }
      TimerAfter(Apply(v, q[0]), q[1..], id);
    }
  }

  /** An event that leaves the cycle, or finds it left, starts none of its timers. */
  lemma LeavingStartsNone(c: Core, e: Event, id: TimerId)
    requires NoRetryInCycle(c) && CycleTimer(id) && !Handle(c, e).core.state.LongSleep?
    ensures !Starts(Handle(c, e).cmds, id)
  {
    hide Handle;
    EveryCommandLicensed(c, e);
    forall d ensures StartTimer(id, d) !in Handle(c, e).cmds {
      assert StartTimer(id, d) in Handle(c, e).cmds ==> Licensed(c.state, e, Handle(c, e).core, StartTimer(id, d));
    }
  }

  /** The cycle is about to sleep: a wake to be scheduled or a suspend sent. */
  ghost predicate Pursues(q: seq<Command>) {
    exists cmd :: cmd in q && (cmd.ScheduleWake? || (cmd.GoToSleep? && !cmd.force))
  }

  lemma PursuesQuietly(c: Core, e: Event, id: TimerId)
    requires NoRetryInCycle(c) && CycleTimer(id) && c.state.LongSleep? && Pursues(Handle(c, e).cmds)
    ensures Handle(c, e).core.state == LongSleep(Armed)
    ensures !Starts(Handle(c, e).cmds, id) && CancelTimer(id) !in Handle(c, e).cmds
    ensures e.TimerFired? || e == WakeScheduled(true)
  {
    hide Handle, Blocked;
    var o := Handle(c, e);
    var cmd :| cmd in o.cmds && (cmd.ScheduleWake? || (cmd.GoToSleep? && !cmd.force));
    EveryCommandLicensed(c, e);
    assert Licensed(c.state, e, o.core, cmd);
    TakesBackExactly(c, e, id);
    if cmd.ScheduleWake? {
      ArmingStartsNone(c, e, id);
    } else {
      CycleSleeps(c, e, cmd);
      SleepingStartsNone(c, id);
    }
  }

  lemma CycleSleeps(c: Core, e: Event, cmd: Command)
    requires NoRetryInCycle(c) && c.state.LongSleep? && cmd in Handle(c, e).cmds && cmd.GoToSleep? && !cmd.force
    requires Licensed(c.state, e, Handle(c, e).core, cmd)
    ensures c.state == Handle(c, e).core.state == LongSleep(Armed) && e == WakeScheduled(true)
  {
    hide Handle, Blocked, IdleInhibited, BatteryCritical;
    FollowsTheTable(c, e);
  }

  lemma ArmingStartsNone(c: Core, e: Event, id: TimerId)
    requires c.state.LongSleep? && Handle(c, e).core.state == LongSleep(Armed) && CycleTimer(id)
    requires e == TimerFired(AwakeWindow) || (e == TimerFired(GraceTimer) && c.state == LongSleep(Grace))
    ensures !Starts(Handle(c, e).cmds, id)
  {
    hide PowerIsBack, CheckPower, BatteryCritical;
    LeavesToActive(c);
    CheckGoes(c);
  }

  lemma SleepingStartsNone(c: Core, id: TimerId)
    requires c.state == LongSleep(Armed) && CycleTimer(id)
    requires Pursues(Handle(c, WakeScheduled(true)).cmds)
    ensures !Starts(Handle(c, WakeScheduled(true)).cmds, id)
  {
    hide Blocked, CycleFailure, PowerIsBack;
    var o := Handle(c, WakeScheduled(true));
    NoSleepAnnounced(c.state, o.core);
    FailurePursuesNothing(c);
    var cmd :| cmd in o.cmds && (cmd.ScheduleWake? || (cmd.GoToSleep? && !cmd.force));
  }

  lemma FailurePursuesNothing(c: Core)
    requires c.state == LongSleep(Armed)
    ensures forall cmd :: cmd in CycleFailure(c).cmds || cmd in PowerIsBack(c).cmds ==> !cmd.ScheduleWake? && !cmd.GoToSleep?
  {
    hide LeaveCycle;
    LeavingPursuesNothing(c);
    LeavingPursuesNothing(c.(sleepFailures := c.sleepFailures + 1));
  }

  lemma LeavingPursuesNothing(c: Core)
    ensures forall cmd :: cmd in LeaveCycle(c).cmds ==> !cmd.ScheduleWake? && !cmd.GoToSleep?
  {
    hide ModeCommands, SelectAutoMode;
    ModeCommandsAre(LeaveCycle(c).core);
  }

  // ----------------------------------------------------- the critical action

  ghost predicate ActsCritically(q: seq<Command>) {
    exists cmd :: cmd in q && (cmd == PowerOff || (cmd.GoToSleep? && cmd.force))
  }

  /** A wake by the alarm, or the end of a window spent looking for power. */
  predicate LooksForPower(c: Core, e: Event) {
    (e == Resumed && c.state.LongSleep?) || (e == TimerFired(AwakeWindow) && c.state == LongSleep(Checking))
  }

  lemma CriticallyActs(c: Core, e: Event)
    requires LooksForPower(c, e) && OutOfPower(c)
    ensures CriticalCommand(c) in Handle(c, e).cmds && ActsCritically(Handle(c, e).cmds)
  {
    hide BatteryCritical, ActsCritically;
    var d := c.(pendingSleep := false);
    assert BatteryCritical(d) == BatteryCritical(c) by { SameBattery(c, d); }
    assert CriticalCommand(d) == CriticalCommand(c);
    Conditions(c);
    assert CriticalCommand(c) in Critically(c);
    CriticalIs(Handle(c, e).cmds, c);
  }

  lemma SameBattery(c: Core, d: Core)
    requires c.battery == d.battery && c.config == d.config
    ensures BatteryCritical(c) == BatteryCritical(d)
  {
  }

  lemma CriticalIs(q: seq<Command>, c: Core)
    requires CriticalCommand(c) in q
    ensures ActsCritically(q)
  {
  }

  /** In the cycle the critical action is taken exactly when power is looked for
      and the battery is at or below the critical level without AC. */
  lemma CriticalActionExactly(c: Core, e: Event)
    requires NoRetryInCycle(c) && c.state.LongSleep?
    ensures ActsCritically(Handle(c, e).cmds) <==> LooksForPower(c, e) && OutOfPower(c)
  {
    hide Handle, OutOfPower;
    if LooksForPower(c, e) && OutOfPower(c) {
      CriticallyActs(c, e);
    }
    if cmd :| cmd in Handle(c, e).cmds && (cmd == PowerOff || (cmd.GoToSleep? && cmd.force)) {
      CriticalActionRetries(c, e, cmd);
      EveryCommandLicensed(c, e);
      assert Licensed(c.state, e, Handle(c, e).core, cmd);
      NotArmed(c, e, cmd);
    }
  }

  lemma NotArmed(c: Core, e: Event, cmd: Command)
    requires NoRetryInCycle(c) && c.state.LongSleep? && (e == Resumed || e == TimerFired(AwakeWindow))
    requires cmd in Handle(c, e).cmds && (cmd == PowerOff || (cmd.GoToSleep? && cmd.force))
    requires Licensed(c.state, e, Handle(c, e).core, cmd)
    ensures LooksForPower(c, e)
  {
    hide Handle, BatteryCritical;
    FollowsTheTable(c, e);
    HandleSame(c, e);
    if c.state == LongSleep(Grace) || c.state == LongSleep(Asleep) {
      IdleTimerSends(c);
    }
  }

  lemma IdleTimerSends(c: Core)
    requires c.state == LongSleep(Grace) || c.state == LongSleep(Asleep)
    ensures Handle(c, TimerFired(AwakeWindow)) == Out(c, [])
  {
  }

  // ------------------------------------------------------------- the panel

  /** None of these is for the panel. */
  ghost predicate Unlit(q: seq<Command>) {
    forall cmd | cmd in q :: !(cmd.Dim? || cmd.Undim? || cmd.Screen?)
  }

  lemma ReapplyUnlit(c: Core)
    ensures Unlit(ReapplyAutoMode(c).cmds)
  {
    hide SelectAutoMode, WantedStages;
  }

  lemma EnterGraceUnlit(c: Core, delay: Duration)
    ensures Unlit(EnterGrace(c, delay).cmds)
  {
  }

  lemma AnnounceUnlit(from: State, c: Core)
    ensures Unlit(Announce(from, c))
  {
  }

  /** The events that always light the panel, also one that is not dark. */
  predicate AlwaysLights(c: Core, e: Event) {
    e == ShutdownRequested || (!c.state.LongSleep? && (e == Resumed || e == ResumedByUser))
  }

  /** The user, or somebody on their behalf. */
  predicate IsActivity(e: Event) {
    e == Activity || (e.Ipc? && (e.request == RequestUndim || e.request == RequestScreen(true)))
  }

  /** The ways into `Active`, except that AC ends Grace or a refusal goes back. */
  predicate Undims(c: Core, e: Event) {
    || AlwaysLights(c, e)
    || (c.state != Active && NextState(c, e) == Active
        && !(c.state == LongSleep(Grace) && e.AcChanged?) && !(c.state == Suspending && e.SleepBlocked?))
  }

  /** The same, except that from `Dimmed` the screen was never off. */
  predicate TurnsOn(c: Core, e: Event) {
    Undims(c, e) && !(c.state == Dimmed && IsActivity(e))
  }

  ghost predicate Lit(q: seq<Command>) {
    Undim in q && Screen(true) in q
  }

  lemma LeavingLights(c: Core)
    ensures Lit(LeaveCycle(c).cmds) && Lit(PowerIsBack(c).cmds)
  {
    hide ModeCommands, SelectAutoMode;
  }

  lemma FailingLights(c: Core)
    requires c.state == LongSleep(Armed)
    ensures if Failed(c) == Active then Lit(CycleFailure(c).cmds) else Unlit(CycleFailure(c).cmds)
  {
    hide LeaveCycle;
    LeavingLights(c.(sleepFailures := c.sleepFailures + 1));
  }

  lemma CheckingLights(c: Core)
    ensures if c.ac then Lit(CheckPower(c).cmds) else Unlit(CheckPower(c).cmds)
  {
    hide PowerIsBack;
    LeavingLights(c);
  }

  lemma SmallUnlit(c: Core, force: bool, armRetry: bool, first: bool)
    ensures Unlit(TrySleep(c, force, armRetry).cmds) && Unlit(Arm(c, first).cmds) && Unlit(ArmSleepRetry(c).cmds)
    ensures Unlit(CancelPendingSleep(c).cmds) && Unlit(ModeChanged(c))
  {
    hide Blocked, WantedStages;
  }

  lemma ActivityLights(c: Core)
    ensures var q := OnActivity(c).cmds;
            if Woken(c) != Active || c.state == Active then Unlit(q)
            else if c.state == Dimmed then Undim in q && Screen(true) !in q
            else Lit(q)
  {
    hide LeaveCycle, CycleFailure, CancelPendingSleep;
    var d := c.(pendingSleep := false);
    CancelPendingKeeps(c);
    SmallUnlit(c, false, false, false);
    if c.state == LongSleep(Armed) {
      FailingLights(d);
    }
    LeavingLights(d.(interrupted := true));
  }

  lemma CancelPendingKeeps(c: Core)
    ensures CancelPendingSleep(c).core == c.(pendingSleep := false)
  {
  }

  lemma TimerLights(c: Core, id: TimerId)
    ensures var q := OnTimer(c, id).cmds;
            if id == AwakeWindow && (c.state == LongSleep(Armed) || c.state == LongSleep(Checking)) && c.ac then Lit(q)
            else Unlit(q)
  {
    hide PowerIsBack, CheckPower, TrySleep, Arm, BatteryCritical, RemoveInhibit, Lit, Unlit;
    NothingUnlit();
    match id
    case SleepRetry => SmallUnlit(c.(pendingSleep := false), false, true, true);
    case InhibitExpiry(_) =>
    case GraceTimer => SmallUnlit(c, false, true, true);
    case AwakeWindow =>
      LeavingLights(c);
      CheckingLights(c);
      SmallUnlit(c, false, true, false);
  }

  lemma NothingUnlit()
    ensures Unlit([])
  {
  }

  lemma PowerLights(c: Core, ac: bool)
    ensures var q := OnAcChanged(c, ac).cmds;
            if c.state == LongSleep(Checking) && ac && !c.ac then Lit(q) else Unlit(q)
  {
    hide PowerIsBack, ReapplyAutoMode, EnterGrace;
    var c' := c.(ac := ac);
    LeavingLights(c');
    ReapplyUnlit(c');
    ReapplyUnlit(c'.(state := Active));
    EnterGraceUnlit(ReapplyAutoMode(c').core, c.config.server.gracePeriod);
  }

  lemma AnswerLights(c: Core, e: Event)
    requires e.SleepBlocked? || e.SleepFailed? || e.WakeScheduled?
    ensures if Undims(c, e) then Lit(Dispatch(c, e).cmds) else Unlit(Dispatch(c, e).cmds)
  {
    hide OnSleepBlocked, OnSleepFailed, OnWakeScheduled, Lit, Unlit;
    match e
    case SleepBlocked(list) => RefusalLights(c, list);
    case SleepFailed => FailureLights(c);
    case WakeScheduled(armed) => WakeLights(c, armed);
  }

  lemma RefusalLights(c: Core, list: seq<Inhibitor>)
    ensures var q := OnSleepBlocked(c, list).cmds; if Undims(c, SleepBlocked(list)) then Lit(q) else Unlit(q)
  {
    hide CycleFailure, ArmSleepRetry;
    var d := c.(external := list);
    if c.state == LongSleep(Armed) {
      FailingLights(d);
    }
    SmallUnlit(d.(state := c.suspendFrom), false, false, false);
  }

  lemma FailureLights(c: Core)
    ensures var q := OnSleepFailed(c).cmds; if Undims(c, SleepFailed) then Lit(q) else Unlit(q)
  {
    hide CycleFailure, OnActivity;
    if c.state == LongSleep(Armed) {
      FailingLights(c);
    }
    ActivityLights(c);
  }

  lemma WakeLights(c: Core, armed: bool)
    ensures var q := OnWakeScheduled(c, armed).cmds; if Undims(c, WakeScheduled(armed)) then Lit(q) else Unlit(q)
  {
    hide CycleFailure, PowerIsBack, Blocked, Hindered;
    Conditions(c);
    if c.state == LongSleep(Armed) {
      FailingLights(c);
    }
    LeavingLights(c);
  }

  lemma ResumedLights(c: Core, byUser: bool)
    ensures var q := OnResumed(c, byUser).cmds;
            if c.state.LongSleep? && !c.ac && !byUser then Unlit(q) else Lit(q)
  {
    hide CheckPower, LeaveCycle, CurrentStages;
    CheckingLights(c.(pendingSleep := false));
    LeavingLights(c.(pendingSleep := false, interrupted := true));
  }

  lemma LongSleepRequestLights(c: Core, id: RequestId, cancel: bool)
    ensures var q := OnLongSleep(c, id, cancel).cmds; if cancel && c.state.LongSleep? then Lit(q) else Unlit(q)
  {
    hide LeaveCycle, EnterGrace;
    LeavingLights(c.(interrupted := false));
    EnterGraceUnlit(c, 0);
  }

  lemma TableRequestUnlit(c: Core, id: RequestId, request: Request)
    requires request.SetMode? || request.AddInhibit? || request.Uninhibit? || request.RequestSleep?
    ensures Unlit(OnIpc(c, id, request).cmds)
  {
    hide ModeChanged, AutoModeName, RemoveInhibit, HasInhibit, TrySleep, Blocked;
    if request.SetMode? {
      SmallUnlit(OnSetMode(c, id, request.name).core, false, false, false);
    } else if request.RequestSleep? {
      SmallUnlit(c, request.force, false, false);
    }
  }

  /** What an event says to the panel: nothing that lights it, `Undim` alone, or
      both. */
  ghost predicate LightsAs(c: Core, e: Event, q: seq<Command>) {
    (Undim in q <==> Undims(c, e)) && (Screen(true) in q <==> TurnsOn(c, e))
  }

  lemma RequestLights(c: Core, id: RequestId, request: Request)
    ensures LightsAs(c, Ipc(id, request), OnIpc(c, id, request).cmds)
  {
    hide OnActivity, OnLongSleep, Blocked, Woken;
    WokenStates(c);
    match request
    case RequestUndim => ActivityLights(c);
    case RequestScreen(_) => ActivityLights(c);
    case RequestLongSleep(cancel) => LongSleepRequestLights(c, id, cancel);
    case SetMode(_) => TableRequestUnlit(c, id, request);
    case AddInhibit(_, _, _) => TableRequestUnlit(c, id, request);
    case Uninhibit(_) => TableRequestUnlit(c, id, request);
    case RequestSleep(_) => TableRequestUnlit(c, id, request);
    case _ =>
  }

  lemma WokenStates(c: Core)
    ensures c.state == Active ==> Woken(c) == Active
    ensures c.state == Dimmed ==> Woken(c) == Active
  {
  }

  lemma ActivityAs(c: Core)
    ensures LightsAs(c, Activity, OnActivity(c).cmds)
  {
    hide OnActivity, Woken;
    WokenStates(c);
    ActivityLights(c);
  }

  lemma PowerAs(c: Core, ac: bool, percent: nat)
    ensures LightsAs(c, AcChanged(ac), OnAcChanged(c, ac).cmds)
    ensures LightsAs(c, Battery(percent), OnBattery(c, percent).cmds)
  {
    hide OnAcChanged, ReapplyAutoMode, ComputeLow;
    PowerLights(c, ac);
    ReapplyUnlit(OnBatteryReading(c, percent));
  }

  lemma ResumedAs(c: Core, byUser: bool)
    ensures LightsAs(c, if byUser then ResumedByUser else Resumed, OnResumed(c, byUser).cmds)
  {
    hide OnResumed;
    ResumedLights(c, byUser);
  }

  lemma TimerAs(c: Core, id: TimerId)
    requires NoRetryInCycle(c)
    ensures LightsAs(c, TimerFired(id), OnTimer(c, id).cmds)
  {
    hide OnTimer, Blocked, BatteryCritical;
    TimerLights(c, id);
  }

  lemma AnswerAs(c: Core, e: Event)
    requires e.SleepBlocked? || e.SleepFailed? || e.WakeScheduled?
    ensures LightsAs(c, e, Dispatch(c, e).cmds)
  {
    hide Dispatch, Blocked;
    AnswerLights(c, e);
  }

  lemma IdleAs(c: Core, stage: Stage)
    ensures LightsAs(c, Idle(stage), OnIdle(c, stage).cmds)
  {
    hide TrySleep, Blocked, IdleInhibited;
    SmallUnlit(c, false, true, false);
  }

  lemma QuietAs(c: Core, e: Event)
    requires e == GoingDown || e.IdleBackendChanged? || e.Inhibitors? || e == ReloadRequested || e == ShutdownRequested || e.HibernateAvailable?
    ensures LightsAs(c, e, Dispatch(c, e).cmds)
  {
  }

  lemma DispatchLights(c: Core, e: Event)
    requires NoRetryInCycle(c)
    ensures LightsAs(c, e, Dispatch(c, e).cmds)
  {
    hide OnActivity, OnAcChanged, OnTimer, OnIpc, OnResumed, OnSleepBlocked, OnSleepFailed, OnWakeScheduled, OnIdle, OnBattery,
         LightsAs;
    match e
    case Idle(stage) => IdleAs(c, stage);
    case Activity => ActivityAs(c);
    case AcChanged(ac) => PowerAs(c, ac, 0);
    case Battery(percent) => PowerAs(c, false, percent);
    case Resumed => ResumedAs(c, false);
    case ResumedByUser => ResumedAs(c, true);
    case TimerFired(timer) => TimerAs(c, timer);
    case Ipc(request, what) => RequestLights(c, request, what);
    case SleepBlocked(_) => AnswerAs(c, e);
    case SleepFailed => AnswerAs(c, e);
    case WakeScheduled(_) => AnswerAs(c, e);
    case _ => QuietAs(c, e);
  }

  /** The panel is told to undim, and to turn on, on exactly these events. */
  lemma LightsExactly(c: Core, e: Event)
    requires NoRetryInCycle(c)
    ensures LightsAs(c, e, Handle(c, e).cmds)
  {
    hide Dispatch, Announce, Undims, TurnsOn;
    DispatchLights(c, e);
    NoSleepAnnounced(c.state, Handle(c, e).core);
  }

  lemma {:induction false} UnlitChangesNothing(v: Effects, q: seq<Command>)
    requires Unlit(q)
    ensures After(v, q).dimmed == v.dimmed && After(v, q).screenOff == v.screenOff
    decreases |q|
  {
    if q != [] {
      assert q[0] in q;
      UnlitChangesNothing(Apply(v, q[0]), q[1..]);
    }
  }

  lemma StrandingIsSilent(c: Core, v: Effects, e: Event)
    requires Strands(c, v, e)
    ensures Handle(c, e).core.state == Active && Unlit(Handle(c, e).cmds)
  {
    hide OnAcChanged, Announce;
    AcGoes(c, true);
    PowerLights(c, true);
    NoSleepAnnounced(c.state, Handle(c, e).core);
  }

  // ------------------------------------------------ stages, staying past Grace

  /** Power asks for another automatic mode than the one in effect. */
  predicate FlipsMode(c: Core, e: Event) {
    match e
    case AcChanged(ac) => ac != c.ac && SelectAutoMode(c.(ac := ac)).1
    case Battery(percent) => OnBatteryReading(c, percent).low != c.low && SelectAutoMode(OnBatteryReading(c, percent)).1
    case _ => false
  }

  lemma ReapplySends(c: Core)
    ensures SendsStages(ReapplyAutoMode(c).cmds) <==> SelectAutoMode(c).1
  {
    hide SelectAutoMode, WantedStages;
    if SelectAutoMode(c).1 {
      ModesSend(SelectAutoMode(c).0);
    }
  }

  lemma ModesSend(c: Core)
    ensures SendsStages(ModeChanged(c)) && SendsStages(ModeCommands(c))
  {
    hide WantedStages;
    assert ReplaceIdleStages(WantedStages(c)) in ModeCommands(c);
    assert ReplaceIdleStages(WantedStages(c)) in ModeChanged(c);
  }

  lemma FailingSendsNone(c: Core)
    requires c.state == LongSleep(Armed) && Failed(c) != Active
    ensures !SendsStages(CycleFailure(c).cmds)
  {
  }

  lemma CheckingSendsNone(c: Core)
    ensures !c.ac ==> !SendsStages(CheckPower(c).cmds)
  {
    hide PowerIsBack;
  }

  lemma ArmingSendsNone(c: Core)
    ensures !SendsStages(Arm(c, false).cmds)
  {
  }

  lemma ActivitySendsNone(c: Core)
    requires c.state.PastGrace() && Woken(c) != Active
    ensures !SendsStages(OnActivity(c).cmds)
  {
    hide CycleFailure, LeaveCycle;
    if c.state == LongSleep(Armed) {
      FailingSendsNone(c.(pendingSleep := false));
    }
  }

  lemma TimerSendsNone(c: Core, id: TimerId)
    requires c.state.PastGrace() && NextOnTimer(c, id) != Active && !c.pendingSleep
    ensures !SendsStages(OnTimer(c, id).cmds)
  {
    hide PowerIsBack, CheckPower, BatteryCritical, RemoveInhibit, Arm;
    CheckingSendsNone(c);
    ArmingSendsNone(c);
  }

  lemma AnswerSendsNone(c: Core, e: Event)
    requires c.state.PastGrace() && (e.SleepBlocked? || e.SleepFailed? || e.WakeScheduled?) && NextState(c, e) != Active
    ensures !SendsStages(Dispatch(c, e).cmds)
  {
    hide CycleFailure, PowerIsBack, Blocked, Hindered;
    Conditions(c);
    if c.state == LongSleep(Armed) && Failed(c) != Active {
      FailingSendsNone(c);
      if e.SleepBlocked? {
        FailingSendsNone(c.(external := e.list));
      }
    }
  }

  lemma PowerSends(c: Core, e: Event)
    requires c.state.PastGrace() && (e.AcChanged? || e.Battery?) && NextState(c, e) != Active
    ensures SendsStages(Dispatch(c, e).cmds) <==> FlipsMode(c, e)
  {
    hide PowerIsBack, ReapplyAutoMode, EnterGrace, ComputeLow, SelectAutoMode;
    if e.AcChanged? {
      ReapplySends(c.(ac := e.ac));
    } else {
      ReapplySends(OnBatteryReading(c, e.percent));
    }
  }

  lemma RequestSends(c: Core, id: RequestId, request: Request)
    requires c.state.PastGrace() && NextOnRequest(c, request) != Active
    ensures SendsStages(OnIpc(c, id, request).cmds) <==> Chooses(c, Ipc(id, request))
  {
    hide OnActivity, LeaveCycle, HasInhibit, RemoveInhibit, AutoModeName, ModeChanged, Blocked, Woken, TrySleep, EnterGrace;
    match request
    case RequestUndim => ActivitySendsNone(c);
    case RequestScreen(on) => if on { ActivitySendsNone(c); }
    case SetMode(name) => ModesSend(OnSetMode(c, id, name).core);
    case _ =>
  }

  /** Past Grace and staying there, something is sent about stages exactly if a
      client chooses a mode or power asks for another one. */
  lemma StayingSendsExactly(c: Core, e: Event)
    requires NoRetryInCycle(c) && c.state.PastGrace() && NextState(c, e).PastGrace()
    ensures SendsStages(Handle(c, e).cmds) <==> Chooses(c, e) || FlipsMode(c, e)
  {
    hide OnActivity, OnAcChanged, OnTimer, OnIpc, OnSleepBlocked, OnSleepFailed, OnWakeScheduled, OnBattery, CheckPower,
         IdleInhibited, Announce, Blocked, BatteryCritical, Woken, NextOnTimer, NextOnAc, NextOnRequest, FlipsMode, Chooses, TrySleep;
    NoSleepAnnounced(c.state, Handle(c, e).core);
    OnlyPowerFlips(c, e);
    match e
    case Activity => ActivitySendsNone(c);
    case AcChanged(_) => PowerSends(c, e);
    case Battery(_) => PowerSends(c, e);
    case Resumed => CheckingSendsNone(c.(pendingSleep := false));
    case TimerFired(timer) => TimerSendsNone(c, timer);
    case Ipc(request, what) => RequestSends(c, request, what);
    case SleepBlocked(_) => AnswerSendsNone(c, e);
    case SleepFailed => AnswerSendsNone(c, e);
    case WakeScheduled(_) => AnswerSendsNone(c, e);
    case _ =>
  }

  lemma OnlyPowerFlips(c: Core, e: Event)
    ensures FlipsMode(c, e) ==> e.AcChanged? || e.Battery?
    ensures Chooses(c, e) ==> e.Ipc?
  {
  }
}
