/** What becomes of each field of the engine, exactly, and with it of the engine
    as a whole: its next state, its next mode, and what an event writes down. */
module Fields {
  import opened Types
  import opened Transition
  import opened Invariants
  import opened Discipline
  import opened Choices
  import opened Outcomes
  import opened Sends

  /** logind's list, the last one it told. */
  function NextExternal(c: Core, e: Event): seq<Inhibitor> {
    match e
    case Inhibitors(list) => list
    case SleepBlocked(list) => list
    case _ => c.external
  }

  predicate BeginsCycle(c: Core, e: Event) {
    !c.state.LongSleep? && NextState(c, e) == LongSleep(Grace)
  }

  /** Nothing is left to retry: the user is back, the machine has been asleep, or
      there is a request or a cycle instead. */
  predicate DropsRetry(c: Core, e: Event) {
    || IsActivity(e) || e == GoingDown || e == Resumed || e == ResumedByUser || (e == SleepFailed && c.state == Suspending)
    || BeginsCycle(c, e) || (!c.state.LongSleep? && Asks(c, e))
  }

  function NextPending(c: Core, e: Event): bool {
    if DropsRetry(c, e) then false
    else if PutOff(c, e) then c.config.sleep.retry > 0 || (c.pendingSleep && !e.TimerFired?)
    else c.pendingSleep
  }

  /** The state a refused request goes back to. */
  function NextSuspendFrom(c: Core, e: Event): State {
    if !c.state.LongSleep? && Asks(c, e) then c.state else c.suspendFrom
  }

  function NextFailures(c: Core, e: Event): nat {
    if BeginsCycle(c, e) || (c.state.LongSleep? && e == GoingDown) then 0
    else if Fails(c, e) then c.sleepFailures + 1
    else c.sleepFailures
  }

  /** Did the user end the cycle? */
  function NextInterrupted(c: Core, e: Event): bool {
    if UserEnds(c, e) then true
    else if BeginsCycle(c, e) || (c.state.LongSleep? && e.Ipc? && e.request == RequestLongSleep(true)) then false
    else c.interrupted
  }

  /** Everything but the inhibitor table, which is `Choices.TableExactly`, and
      what no handler touches, which is `Discipline.HandleSame`. */
  ghost predicate FieldsAre(c: Core, e: Event, d: Core) {
    HearsAs(c, e, d) && SleepsAs(c, e, d)
  }

  ghost predicate HearsAs(c: Core, e: Event, d: Core) {
    && d.mode == NextMode(c, e) && d.low == Heard(c, e).low && d.external == NextExternal(c, e)
    && d.idleConnected == (if e.IdleBackendChanged? then e.connected else c.idleConnected)
  }

  ghost predicate SleepsAs(c: Core, e: Event, d: Core) {
    && d.pendingSleep == NextPending(c, e) && d.suspendFrom == NextSuspendFrom(c, e)
    && d.sleepFailures == NextFailures(c, e) && d.interrupted == NextInterrupted(c, e)
  }

  // ------------------------------------------------------ pieces of handlers

  /** The fields that only some events write. */
  ghost predicate Wrote(c: Core, d: Core, pending: bool, failures: nat, interrupted: bool) {
    && d.low == c.low && d.external == c.external && d.idleConnected == c.idleConnected && d.suspendFrom == c.suspendFrom
    && d.pendingSleep == pending && d.sleepFailures == failures && d.interrupted == interrupted
  }

  ghost predicate WroteNothing(c: Core, d: Core) {
    Wrote(c, d, c.pendingSleep, c.sleepFailures, c.interrupted)
  }

  lemma LeavingWrites(c: Core)
    ensures WroteNothing(c, LeaveCycle(c).core) && LeaveCycle(c).core.mode == Settled(c)
    ensures PowerIsBack(c).core == LeaveCycle(c).core
    ensures WroteNothing(c, CheckPower(c).core) && CheckPower(c).core.mode == (if c.ac then Settled(c) else c.mode)
  {
    hide LeaveCycle, PowerIsBack, CheckPower, Settled, IsLeaving;
    LeavingSends(c);
    BackSends(c);
    CheckingSends(c);
  }

  lemma FailingWrites(c: Core)
    requires c.state == LongSleep(Armed) && AutoModeOk(c)
    ensures var d := CycleFailure(c).core;
            Wrote(c, d, c.pendingSleep, c.sleepFailures + 1, c.interrupted) && d.mode == c.mode
  {
    hide LeaveCycle, Settled, AutoModeOk;
    var d := c.(sleepFailures := c.sleepFailures + 1);
    LeavingWrites(d);
    SettledDepends(c, d);
    StaysSettled(c);
  }

  lemma TryingWrites(c: Core, force: bool, armRetry: bool)
    ensures var d := TrySleep(c, force, armRetry).core;
            && d.mode == c.mode
            && (if force || !Hindered(c) then Wrote(c.(suspendFrom := c.state), d, false, c.sleepFailures, c.interrupted)
                else Wrote(c, d, c.pendingSleep || (armRetry && c.config.sleep.retry > 0), c.sleepFailures, c.interrupted))
  {
    hide Blocked, Hindered;
    Conditions(c);
  }

  lemma GraceWrites(c: Core, delay: Duration)
    ensures var d := EnterGrace(c, delay).core; Wrote(c, d, false, 0, false) && d.mode == c.mode
  {
  }

  ghost predicate ActivityWrote(c: Core) {
    var d := OnActivity(c).core;
    && d.mode == c.mode
    && Wrote(c, d, false, c.sleepFailures + (if c.state == LongSleep(Armed) then 1 else 0),
             c.interrupted || c.state == LongSleep(Checking))
  }

  lemma ArmedWrites(c: Core)
    requires AutoModeOk(c) && c.state == LongSleep(Armed)
    ensures ActivityWrote(c)
  {
    hide CycleFailure, LeaveCycle, AutoModeOk, Settled, CancelPendingSleep;
    var d := c.(pendingSleep := false);
    DroppingSends(c);
    SettledOk(c, d);
    FailingWrites(d);
  }

  lemma CheckingWrites(c: Core)
    requires AutoModeOk(c) && c.state == LongSleep(Checking)
    ensures ActivityWrote(c)
  {
    hide CycleFailure, LeaveCycle, AutoModeOk, Settled, CancelPendingSleep;
    var d := c.(pendingSleep := false, interrupted := true);
    DroppingSends(c);
    SettledOk(c, d);
    LeavingWrites(d);
  }

  lemma ActivityWrites(c: Core)
    requires AutoModeOk(c)
    ensures ActivityWrote(c)
  {
    if c.state == LongSleep(Armed) {
      hide ActivityWrote;
      ArmedWrites(c);
    } else if c.state == LongSleep(Checking) {
      hide ActivityWrote;
      CheckingWrites(c);
    } else {
      hide CycleFailure, LeaveCycle, AutoModeOk, CancelPendingSleep;
      DroppingSends(c);
    }
  }

  lemma SettledOk(c: Core, d: Core)
    requires AutoModeOk(c) && c.config == d.config && c.mode == d.mode && c.ac == d.ac && c.low == d.low
    ensures AutoModeOk(d) && Settled(d) == d.mode
  {
  }

  // ---------------------------------------------------------------- events

  lemma OnlyThenGrace(c: Core, e: Event)
    requires NoRetryInCycle(c) && !e.AcChanged? && !(e.Ipc? && e.request == RequestLongSleep(false))
    ensures !BeginsCycle(c, e)
  {
    hide Hindered, Holds, OutOfPower;
  }

  lemma ActivityFields(c: Core, e: Event)
    requires InOrder(c) && (IsActivity(e) || (e == SleepFailed && c.state == Suspending))
    ensures FieldsAre(c, e, OnActivity(c).core)
  {
    hide OnActivity, BeginsCycle, AutoModeOk, Hindered, Settled, Holds;
    ActivityWrites(c);
    OnlyThenGrace(c, e);
    StaysSettled(c);
  }

  lemma IdleWrites(c: Core, stage: Stage)
    ensures var d, tries := OnIdle(c, stage).core, stage == SleepStage && c.state.IsAwake() && !Holds(c.inhibits, InhibitIdle);
            && d.mode == c.mode
            && (if tries && !Hindered(c) then Wrote(c.(suspendFrom := c.state), d, false, c.sleepFailures, c.interrupted)
                else Wrote(c, d, c.pendingSleep || (tries && c.config.sleep.retry > 0), c.sleepFailures, c.interrupted))
  {
    hide TrySleep, IdleInhibited, Holds, Hindered;
    Conditions(c);
    TryingWrites(c, false, true);
  }

  lemma IdleFields(c: Core, stage: Stage)
    requires InOrder(c)
    ensures FieldsAre(c, Idle(stage), OnIdle(c, stage).core)
  {
    hide OnIdle, Holds, Hindered, Settled, AutoModeOk, BeginsCycle;
    OnlyThenGrace(c, Idle(stage));
    StaysSettled(c);
    IdleWrites(c, stage);
  }

  ghost predicate AcWrote(c: Core, ac: bool) {
    var d := OnAcChanged(c, ac).core;
    && d.mode == Settled(c.(ac := ac))
    && (if BeginsCycle(c, AcChanged(ac)) then Wrote(c, d, false, 0, false) else WroteNothing(c, d))
  }

  lemma AcEndsWrites(c: Core)
    requires !c.ac && (c.state == LongSleep(Grace) || c.state == LongSleep(Checking))
    ensures AcWrote(c, true)
  {
    hide PowerIsBack, ReapplyAutoMode, EnterGrace, LeaveCycle, Settled;
    var d := c.(ac := true);
    LeavingWrites(d);
    ReapplyingSends(d.(state := Active));
    SettledDepends(d, d.(state := Active));
  }

  lemma AcMovesWrites(c: Core, ac: bool)
    requires ac != c.ac && !(ac && (c.state == LongSleep(Grace) || c.state == LongSleep(Checking)))
    ensures AcWrote(c, ac)
  {
    hide PowerIsBack, ReapplyAutoMode, EnterGrace, Settled;
    var d := c.(ac := ac);
    ReapplyingSends(d);
    GraceWrites(d.(mode := Settled(d)), c.config.server.gracePeriod);
  }

  lemma AcStaysWrites(c: Core)
    requires AutoModeOk(c)
    ensures AcWrote(c, c.ac)
  {
    hide Settled, AutoModeOk;
    StaysSettled(c);
    assert c.(ac := c.ac) == c;
  }

  lemma AcWrites(c: Core, ac: bool)
    requires InOrder(c)
    ensures AcWrote(c, ac)
  {
    hide AcWrote;
    if ac == c.ac {
      AcStaysWrites(c);
    } else if ac && (c.state == LongSleep(Grace) || c.state == LongSleep(Checking)) {
      AcEndsWrites(c);
    } else {
      AcMovesWrites(c, ac);
    }
  }

  lemma AcFields(c: Core, ac: bool)
    requires InOrder(c)
    ensures FieldsAre(c, AcChanged(ac), OnAcChanged(c, ac).core)
  {
    hide AutoModeOk, Settled, OnAcChanged, BeginsCycle;
    StaysSettled(c);
    AcWrites(c, ac);
  }

  lemma BatteryFields(c: Core, percent: nat)
    requires InOrder(c)
    ensures FieldsAre(c, Battery(percent), OnBattery(c, percent).core)
  {
    hide OnBattery, Settled, LowAt, BeginsCycle;
    OnlyThenGrace(c, Battery(percent));
    ReadingSends(c, percent);
  }

  lemma ResumedWrites(c: Core, byUser: bool)
    requires InOrder(c)
    ensures var d := OnResumed(c, byUser).core;
            && d.mode == c.mode
            && Wrote(c, d, false, c.sleepFailures, c.interrupted || (byUser && !c.ac && c.state.LongSleep?))
  {
    hide CheckPower, LeaveCycle, Settled, AutoModeOk, CurrentStages;
    var d := c.(pendingSleep := false);
    LeavingWrites(d);
    LeavingWrites(d.(interrupted := true));
    SettledOk(c, d);
    SettledOk(c, d.(interrupted := true));
  }

  lemma ResumedFields(c: Core, byUser: bool)
    requires InOrder(c)
    ensures FieldsAre(c, if byUser then ResumedByUser else Resumed, OnResumed(c, byUser).core)
  {
    hide OnResumed, Settled, AutoModeOk, BeginsCycle;
    OnlyThenGrace(c, if byUser then ResumedByUser else Resumed);
    StaysSettled(c);
    ResumedWrites(c, byUser);
  }

  lemma TimerWrites(c: Core, id: TimerId)
    requires InOrder(c)
    ensures var d := OnTimer(c, id).core;
            && d.mode == c.mode
            && (if id == SleepRetry && c.pendingSleep then
                  if Hindered(c) then Wrote(c, d, c.config.sleep.retry > 0, c.sleepFailures, c.interrupted)
                  else Wrote(c.(suspendFrom := c.state), d, false, c.sleepFailures, c.interrupted)
                else WroteNothing(c, d))
  {
    hide Settled, AutoModeOk, TrySleep, CheckPower, PowerIsBack, BatteryCritical, RemoveInhibit, Hindered, LeaveCycle;
    StaysSettled(c);
    match id
    case SleepRetry =>
      var d := c.(pendingSleep := false);
      HinderedDepends(c, d);
      TryingWrites(d, false, true);
    case AwakeWindow => LeavingWrites(c);
    case _ =>
  }

  lemma TimerFields(c: Core, id: TimerId)
    requires InOrder(c)
    ensures FieldsAre(c, TimerFired(id), OnTimer(c, id).core)
  {
    hide OnTimer, BeginsCycle, Settled, AutoModeOk, Hindered;
    OnlyThenGrace(c, TimerFired(id));
    StaysSettled(c);
    TimerWrites(c, id);
  }

  lemma AnswerFields(c: Core, e: Event)
    requires InOrder(c) && (e.SleepBlocked? || e.WakeScheduled? || e == SleepFailed)
    ensures FieldsAre(c, e, Dispatch(c, e).core)
  {
    hide OnSleepBlocked, OnSleepFailed, OnWakeScheduled, FieldsAre;
    match e
    case SleepBlocked(list) => RefusalFields(c, list);
    case WakeScheduled(armed) => WakeFields(c, armed);
    case SleepFailed => FailureFields(c);
  }

  lemma FailureFields(c: Core)
    requires InOrder(c)
    ensures FieldsAre(c, SleepFailed, OnSleepFailed(c).core)
  {
    hide CycleFailure, OnActivity, Settled, AutoModeOk, BeginsCycle;
    OnlyThenGrace(c, SleepFailed);
    StaysSettled(c);
    if c.state == Suspending {
      ActivityWrites(c);
    } else if c.state == LongSleep(Armed) {
      FailingWrites(c);
    }
  }

  lemma RefusalWrites(c: Core, list: seq<Inhibitor>)
    requires InOrder(c)
    ensures var d := OnSleepBlocked(c, list).core;
            && d.mode == c.mode
            && Wrote(c.(external := list), d, c.pendingSleep || (c.state == Suspending && c.config.sleep.retry > 0),
                     c.sleepFailures + (if c.state == LongSleep(Armed) then 1 else 0), c.interrupted)
  {
    hide CycleFailure, Settled, AutoModeOk;
    var d := c.(external := list);
    SettledOk(c, d);
    if c.state == LongSleep(Armed) {
      FailingWrites(d);
    }
  }

  lemma RefusalFields(c: Core, list: seq<Inhibitor>)
    requires InOrder(c)
    ensures FieldsAre(c, SleepBlocked(list), OnSleepBlocked(c, list).core)
  {
    hide OnSleepBlocked, Settled, AutoModeOk, BeginsCycle;
    OnlyThenGrace(c, SleepBlocked(list));
    StaysSettled(c);
    RefusalWrites(c, list);
  }

  lemma WakeFields(c: Core, armed: bool)
    requires InOrder(c)
    ensures FieldsAre(c, WakeScheduled(armed), OnWakeScheduled(c, armed).core)
  {
    hide CycleFailure, PowerIsBack, Settled, AutoModeOk, Blocked, Hindered, BeginsCycle, LeaveCycle;
    OnlyThenGrace(c, WakeScheduled(armed));
    Conditions(c);
    StaysSettled(c);
    LeavingWrites(c);
    if c.state == LongSleep(Armed) {
      FailingWrites(c);
    }
  }

  lemma CycleRequestFields(c: Core, id: RequestId, cancel: bool)
    requires InOrder(c)
    ensures FieldsAre(c, Ipc(id, RequestLongSleep(cancel)), OnLongSleep(c, id, cancel).core)
  {
    hide LeaveCycle, EnterGrace, Settled, AutoModeOk;
    StaysSettled(c);
    GraceWrites(c, 0);
    LeavingWrites(c.(interrupted := false));
    SettledOk(c, c.(interrupted := false));
  }

  lemma SleepRequestFields(c: Core, id: RequestId, force: bool)
    requires InOrder(c)
    ensures FieldsAre(c, Ipc(id, RequestSleep(force)), OnRequestSleep(c, id, force).core)
  {
    hide TrySleep, Settled, AutoModeOk, Blocked, Hindered, BeginsCycle;
    OnlyThenGrace(c, Ipc(id, RequestSleep(force)));
    Conditions(c);
    StaysSettled(c);
    TryingWrites(c, force, false);
  }

  lemma SetModeWrites(c: Core, id: RequestId, name: string)
    ensures var d := OnSetMode(c, id, name).core; d.mode == RequestedMode(c, SetMode(name)) && WroteNothing(c, d)
  {
    hide ModeChanged, AutoModeName, Wanted;
    WantedName(c);
  }

  lemma SetModeFields(c: Core, id: RequestId, name: string)
    requires InOrder(c)
    ensures FieldsAre(c, Ipc(id, SetMode(name)), OnSetMode(c, id, name).core)
  {
    hide OnSetMode, BeginsCycle, Settled, Wanted, AutoModeOk;
    OnlyThenGrace(c, Ipc(id, SetMode(name)));
    StaysSettled(c);
    SetModeWrites(c, id, name);
  }

  lemma RequestFields(c: Core, id: RequestId, request: Request)
    requires InOrder(c)
    ensures FieldsAre(c, Ipc(id, request), OnIpc(c, id, request).core)
  {
    match request
    case SetMode(name) => SetModeFields(c, id, name);
    case RequestUndim => ActivityFields(c, Ipc(id, request));
    case RequestScreen(on) => ScreenRequestFields(c, id, on);
    case RequestLongSleep(cancel) => CycleRequestFields(c, id, cancel);
    case RequestSleep(force) => SleepRequestFields(c, id, force);
    case _ => OtherRequestFields(c, id, request);
  }

  lemma ScreenRequestFields(c: Core, id: RequestId, on: bool)
    requires InOrder(c)
    ensures FieldsAre(c, Ipc(id, RequestScreen(on)), OnIpc(c, id, RequestScreen(on)).core)
  {
    if on {
      hide FieldsAre, OnActivity;
      ActivityFields(c, Ipc(id, RequestScreen(true)));
    } else {
      OtherRequestFields(c, id, RequestScreen(false));
    }
  }

  /** The requests that are about none of these fields. */
  predicate Elsewhere(request: Request) {
    match request
    case SetMode(_) | RequestUndim | RequestLongSleep(_) | RequestSleep(_) => false
    case RequestScreen(on) => !on
    case _ => true
  }

  lemma OtherRequestWrites(c: Core, id: RequestId, request: Request)
    requires Elsewhere(request)
    ensures var d := OnIpc(c, id, request).core; d.mode == c.mode && WroteNothing(c, d)
  {
    hide OnInhibit, OnUninhibit, OnActivity, OnSetMode, OnLongSleep, OnRequestSleep;
    match request
    case AddInhibit(what, why, ttl) => InhibitWrites(c, id, what, why, ttl);
    case Uninhibit(inhibit) => UninhibitWrites(c, id, inhibit);
    case _ =>
  }

  lemma InhibitWrites(c: Core, id: RequestId, what: InhibitWhat, why: string, ttl: Duration)
    ensures var d := OnInhibit(c, id, what, why, ttl).core; d.mode == c.mode && WroteNothing(c, d)
  {
  }

  lemma UninhibitWrites(c: Core, id: RequestId, inhibit: nat)
    ensures var d := OnUninhibit(c, id, inhibit).core; d.mode == c.mode && WroteNothing(c, d)
  {
    hide RemoveInhibit, HasInhibit;
  }

  lemma OtherRequestFields(c: Core, id: RequestId, request: Request)
    requires InOrder(c) && Elsewhere(request)
    ensures FieldsAre(c, Ipc(id, request), OnIpc(c, id, request).core)
  {
    hide OnIpc, Settled, AutoModeOk, BeginsCycle;
    OnlyThenGrace(c, Ipc(id, request));
    StaysSettled(c);
    OtherRequestWrites(c, id, request);
  }

  lemma QuietWrites(c: Core, e: Event)
    requires IsQuiet(e) || e == ShutdownRequested
    ensures var d := Dispatch(c, e).core;
            && d.mode == c.mode
            && Wrote(c.(external := NextExternal(c, e), idleConnected := if e.IdleBackendChanged? then e.connected else c.idleConnected),
                     d, c.pendingSleep && e != GoingDown, if c.state.LongSleep? && e == GoingDown then 0 else c.sleepFailures,
                     c.interrupted)
  {
    hide OnIdle, OnActivity, OnAcChanged, OnTimer, OnIpc, OnResumed, OnSleepBlocked, OnSleepFailed, OnWakeScheduled, OnBattery,
         OnGoingDown, OnShutdown;
    match e
    case GoingDown => GoingDownWrites(c);
    case ShutdownRequested => ShutdownWrites(c);
    case _ =>
  }

  lemma GoingDownWrites(c: Core)
    ensures var d := OnGoingDown(c).core;
            d.mode == c.mode && Wrote(c, d, false, if c.state.LongSleep? then 0 else c.sleepFailures, c.interrupted)
  {
  }

  lemma ShutdownWrites(c: Core)
    ensures var d := OnShutdown(c).core; d.mode == c.mode && WroteNothing(c, d)
  {
  }

  lemma QuietIs(c: Core, e: Event)
    requires IsQuiet(e) || e == ShutdownRequested
    ensures !Asks(c, e) && !UserEnds(c, e) && !Fails(c, e) && !PutOff(c, e) && !Chooses(c, e)
  {
  }

  lemma QuietFields(c: Core, e: Event)
    requires InOrder(c) && (IsQuiet(e) || e == ShutdownRequested)
    ensures FieldsAre(c, e, Dispatch(c, e).core)
  {
    hide Dispatch, Settled, AutoModeOk, BeginsCycle, Asks, UserEnds, Fails, PutOff, Chooses;
    OnlyThenGrace(c, e);
    StaysSettled(c);
    QuietIs(c, e);
    QuietWrites(c, e);
    if e == GoingDown {
    } else if e == ShutdownRequested {
    } else {
    }
  }

  /** What every event writes down. */
  lemma FieldsExactly(c: Core, e: Event)
    requires InOrder(c)
    ensures FieldsAre(c, e, Handle(c, e).core) && Handle(c, e).core.state == NextState(c, e)
  {
    hide FieldsAre, AutoModeOk, OnIdle, OnActivity, OnAcChanged, OnTimer, OnIpc, OnResumed, OnSleepBlocked, OnSleepFailed,
         OnWakeScheduled, OnBattery, OnShutdown, Announce, NextState;
    FollowsTheTable(c, e);
    match e
    case Idle(stage) => IdleFields(c, stage);
    case Activity => ActivityFields(c, Activity);
    case AcChanged(ac) => AcFields(c, ac);
    case Battery(percent) => BatteryFields(c, percent);
    case Resumed => ResumedFields(c, false);
    case ResumedByUser => ResumedFields(c, true);
    case TimerFired(id) => TimerFields(c, id);
    case Ipc(id, request) => RequestFields(c, id, request);
    case SleepBlocked(_) => AnswerFields(c, e);
    case SleepFailed => AnswerFields(c, e);
    case WakeScheduled(_) => AnswerFields(c, e);
    case _ => QuietFields(c, e);
  }

  // ------------------------------------------------------------ the whole event

  lemma AnnouncedDue(c: Core, e: Event, d: Core, cmd: Command)
    requires Announces(cmd) && d.state == NextState(c, e) && d.interrupted == NextInterrupted(c, e)
    requires NoRetryInCycle(c) && (c.state.LongSleep? ==> !c.interrupted)
    ensures cmd in Announce(c.state, d) <==> Due(c, e, NextState(c, e), d.mode, cmd)
  {
    hide NextState, UserEnds;
    if c.state.LongSleep? && !d.state.LongSleep? {
      assert !BeginsCycle(c, e);
    }
  }

  lemma AnnouncesOnly(from: State, c: Core, cmd: Command)
    ensures cmd in Announce(from, c) ==> Announces(cmd)
  {
  }

  lemma NotOurs(c: Core, e: Event, d: Core, cmd: Command)
    requires !Ours(cmd) && NoRetryInCycle(c)
    ensures cmd in Handle(c, e).cmds <==> Due(c, e, NextState(c, e), d.mode, cmd)
  {
    hide Handle, Undims, TurnsOn, TakesBack, NextState;
    LightsExactly(c, e);
    TakesBackExactly(c, e, AwakeWindow);
    TakesBackExactly(c, e, GraceTimer);
  }

  /** Every event sends exactly the commands that are due. */
  lemma SentExactly(c: Core, e: Event)
    requires InOrder(c) && (c.state.LongSleep? ==> !c.interrupted)
    ensures forall cmd :: cmd in Handle(c, e).cmds <==> Due(c, e, NextState(c, e), NextMode(c, e), cmd)
  {
    hide Dispatch, Announce, Due, Ours, Announces, NextState, NextMode, AutoModeOk, Handle;
    var d := Handle(c, e).core;
    FieldsExactly(c, e);
    DispatchSends(c, e);
    forall cmd ensures cmd in Handle(c, e).cmds <==> Due(c, e, NextState(c, e), d.mode, cmd) {
      AnnouncesOnly(c.state, d, cmd);
      HandleIs(c, e, cmd);
      if !Ours(cmd) {
        NotOurs(c, e, d, cmd);
      } else if Announces(cmd) {
        AnnouncedDue(c, e, d, cmd);
      }
    }
  }

  lemma HandleIs(c: Core, e: Event, cmd: Command)
    ensures Handle(c, e).core == Dispatch(c, e).core
    ensures cmd in Handle(c, e).cmds <==> cmd in Dispatch(c, e).cmds || cmd in Announce(c.state, Handle(c, e).core)
  {
    hide Dispatch, Announce;
  }

  /** A refusal is the whole answer: nothing changes and nothing else is sent. */
  lemma RefusalIsAll(c: Core, id: RequestId, request: Request)
    requires request != RequestReload && AnswerTo(c, request).Refused?
    ensures Handle(c, Ipc(id, request)) == Out(c, [Reply(id, AnswerTo(c, request))])
  {
    hide TrySleep, OnActivity, Blocked, Hindered, EnterGrace, CancelCycle, ModeChanged, AutoModeName, RemoveInhibit, HasInhibit;
    Conditions(c);
  }
}
