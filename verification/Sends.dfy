/** When each command is sent, exactly. The handlers say what an event does;
    this is the same machine read the other way round, command by command, in
    terms of the fields and the configuration alone. */
module Sends {
  import opened Types
  import opened Transition
  import opened Invariants
  import opened Discipline
  import opened Choices
  import opened Outcomes

  // ------------------------------------------------------------- the mode

  /** A stage that is switched off has no timeout. */
  predicate StageIs(stage: Option<Duration>, after: Duration) {
    if after > 0 then stage == Some(after) else stage == None
  }

  /** The idle stages of a mode, each from its own timeout; of a mode the config
      does not have, none. */
  predicate StagesAre(s: Stages, config: Config, name: string) {
    if name in config.modes then
      var m := config.modes[name];
      StageIs(s.dim, m.dimAfter) && StageIs(s.screenOff, m.screenOffAfter) && StageIs(s.sleep, m.sleepAfter)
    else s == NO_STAGES
  }

  predicate StagesDue(s: Stages, state: State, config: Config, name: string) {
    if state.PastGrace() then s == NO_STAGES else StagesAre(s, config, name)
  }

  /** A manual mode stays; otherwise the one that is wanted. */
  function Settled(c: Core): ModeSelection {
    if c.mode.Manual? then c.mode else Auto(Wanted(c.config, c.mode.name, c.ac, c.low))
  }

  function LowAt(threshold: nat, low: bool, percent: nat): bool {
    if percent <= threshold then true else if percent >= Min(threshold + 5, 100) then false else low
  }

  /** What the event says of power. */
  function Heard(c: Core, e: Event): Core {
    match e
    case AcChanged(ac) => c.(ac := ac)
    case Battery(percent) => c.(battery := Some(percent), low := LowAt(c.config.auto.lowBatteryPercent, c.low, percent))
    case _ => c
  }

  /** The mode follows clients and power, and nothing else. */
  function NextMode(c: Core, e: Event): ModeSelection {
    if Chooses(c, e) then
      if e.request.name == "auto" then Auto(Wanted(c.config, c.mode.name, c.ac, c.low)) else Manual(e.request.name)
    else Settled(Heard(c, e))
  }

  // --------------------------------------------------------------- replies

  function AnswerTo(c: Core, request: Request): Response {
    match request
    case Status => StatusData(c.state)
    case Modes => ModesData(c.mode)
    case SetMode(name) => if name == "auto" || name in c.config.modes then Done else Refused(NoSuchMode)
    case RequestSleep(force) =>
      if c.state.LongSleep? then Refused(InLongSleep)
      else if !force && Hindered(c) then Refused(BlockedByInhibitors)
      else Done
    case RequestLongSleep(cancel) =>
      if cancel then if c.state.LongSleep? then Done else Refused(NotInLongSleep)
      else if !c.config.server.enabled then Refused(ServerNotEnabled)
      else if c.state.LongSleep? then Refused(AlreadyInLongSleep)
      else if c.state.IsAwake() then Done
      else Refused(GoingToSleep)
    case AddInhibit(_, _, ttl) => if ttl > 0 then Inhibited(c.nextInhibitId) else Refused(ZeroTtl)
    case Uninhibit(id) => if HasInhibit(c.inhibits, id) then Done else Refused(NoSuchInhibitor)
    case Subscribe | Agent => Refused(NotForTheEngine)
    case RequestDim | RequestUndim | RequestScreen(_) | RequestReload => Done
  }

  // -------------------------------------------------------- when it is sent

  /** The cycle ends, by the way all ends but one take. */
  predicate Leaves(c: Core, e: Event, n: State) {
    c.state.LongSleep? && n == Active && !(c.state == LongSleep(Grace) && e.AcChanged?)
  }

  /** It ends because there is power. */
  predicate PowerFound(c: Core, e: Event) {
    match e
    case AcChanged(ac) => ac && !c.ac && c.state == LongSleep(Checking)
    case Resumed | ResumedByUser => c.ac && c.state.LongSleep?
    case WakeScheduled(armed) => armed && c.ac && c.state == LongSleep(Armed)
    case TimerFired(id) => id == AwakeWindow && c.ac && (c.state == LongSleep(Armed) || c.state == LongSleep(Checking))
    case _ => false
  }

  /** It ends because of the user. */
  predicate UserEnds(c: Core, e: Event) {
    (IsActivity(e) && c.state == LongSleep(Checking)) || (e == ResumedByUser && !c.ac && c.state.LongSleep?)
  }

  predicate Fails(c: Core, e: Event) {
    c.state == LongSleep(Armed) && AttemptFailed(c, e)
  }

  /** A suspend that is wanted and has to wait. */
  predicate PutOff(c: Core, e: Event) {
    match e
    case Idle(stage) => stage == SleepStage && c.state.IsAwake() && !Holds(c.inhibits, InhibitIdle) && Hindered(c)
    case TimerFired(id) => id == SleepRetry && c.pendingSleep && Hindered(c)
    case SleepBlocked(_) => c.state == Suspending
    case _ => false
  }

  /** Power is looked for and there is next to none left. */
  predicate LastResort(c: Core, e: Event) {
    LooksForPower(c, e) && OutOfPower(c)
  }

  predicate HibernatesAtLast(c: Core) {
    c.config.server.criticalAction == CriticalHibernate && c.hibernateAvailable
  }

  predicate AppliesMode(c: Core, e: Event, n: State, m: ModeSelection) {
    Chooses(c, e) || m != c.mode || (Leaves(c, e, n) && e != ShutdownRequested)
  }

  predicate DueSleep(c: Core, e: Event, how: SleepMethod, force: bool) {
    if !c.state.LongSleep? then
      how == c.config.sleep.how && Asks(c, e) && (force <==> e.Ipc? && e.request == RequestSleep(true))
    else if force then
      how == Hibernate && LastResort(c, e) && HibernatesAtLast(c)
    else
      how == c.config.sleep.how && e == WakeScheduled(true) && c.state == LongSleep(Armed) && !c.ac && !Hindered(c)
  }

  predicate DueTimer(c: Core, e: Event, n: State, id: TimerId, d: Duration) {
    match id
    case GraceTimer =>
      !c.state.LongSleep? && n == LongSleep(Grace) && d == (if e.AcChanged? then c.config.server.gracePeriod else 0)
    case SleepRetry => d == c.config.sleep.retry > 0 && PutOff(c, e)
    case AwakeWindow =>
      && d == c.config.server.awakeWindow
      && ((Fails(c, e) && n == LongSleep(Armed)) || (LooksForPower(c, e) && n == LongSleep(Checking)))
    case InhibitExpiry(i) =>
      e.Ipc? && e.request.AddInhibit? && i == c.nextInhibitId && d == Min(e.request.ttl, MAX_INHIBIT_TTL) > 0
  }

  predicate DueCancel(c: Core, e: Event, n: State, id: TimerId) {
    match id
    case SleepRetry =>
      c.pendingSleep && (IsActivity(e) || (e == SleepFailed && c.state == Suspending) || (!c.state.LongSleep? && n == LongSleep(Grace)))
    case InhibitExpiry(i) => e.Ipc? && e.request == Uninhibit(i) && HasInhibit(c.inhibits, i)
    case _ => TakesBack(c, e, id)
  }

  predicate DueNews(c: Core, e: Event, n: State, m: ModeSelection, news: StateEvent) {
    match news
    case StateChange(from, to) => from == c.state && to == n && from != to
    case PhaseChange(what) =>
      || (what == Critical && LastResort(c, e))
      || (c.state != n && (c.state.LongSleep? || n.LongSleep?)
          && what == (if n.LongSleep? then InPhase(n.phase) else if UserEnds(c, e) then Interrupted else NotRunning))
    case ModeChange(name) => name == m.name && (Chooses(c, e) || m != c.mode)
    case PowerChange(ac) => e == AcChanged(ac) && ac != c.ac
  }

  /** `n` and `m` are the state and the mode after the event. */
  predicate Due(c: Core, e: Event, n: State, m: ModeSelection, cmd: Command) {
    match cmd
    case Dim(percent) => c.state == Active && n == Dimmed && percent == c.config.dimPercent
    case Undim => Undims(c, e)
    case Screen(on) => if on then TurnsOn(c, e) else (c.state == Active || c.state == Dimmed) && n == ScreenOff
    case ApplyMode(name) => name == m.name != "" && AppliesMode(c, e, n, m)
    case ReplaceIdleStages(s) =>
      && StagesDue(s, n, c.config, m.name)
      && (AppliesMode(c, e, n, m) || (e == TimerFired(GraceTimer) && c.state == LongSleep(Grace))
          || (!c.state.LongSleep? && (e == Resumed || e == ResumedByUser)))
    case GoToSleep(how, force) => DueSleep(c, e, how, force)
    case PowerOff => LastResort(c, e) && !HibernatesAtLast(c)
    case ScheduleWake(after) =>
      && after == c.config.server.checkInterval && n == LongSleep(Armed)
      && (e == TimerFired(AwakeWindow) || (e == TimerFired(GraceTimer) && c.state == LongSleep(Grace)))
    case CancelWake => Leaves(c, e, n)
    case RunHook(hook) => PowerFound(c, e) && c.config.server.resumeHook == Some(hook)
    case StartTimer(id, d) => DueTimer(c, e, n, id, d)
    case CancelTimer(id) => DueCancel(c, e, n, id)
    case Reply(id, response) =>
      e.Ipc? && id == e.id && e.request != RequestReload && response == AnswerTo(c, e.request)
    case Broadcast(news) => DueNews(c, e, n, m, news)
    case Reload(replyTo) =>
      (e == ReloadRequested && replyTo == None) || (e.Ipc? && e.request == RequestReload && replyTo == Some(e.id))
    case Shutdown => e == ShutdownRequested
  }

  // ------------------------------------------------------ pieces of handlers

  predicate IsMode(c: Core, cmd: Command) {
    match cmd
    case ApplyMode(name) => name == c.mode.name != ""
    case ReplaceIdleStages(s) => StagesDue(s, c.state, c.config, c.mode.name)
    case _ => false
  }

  predicate IsNewMode(c: Core, cmd: Command) {
    IsMode(c, cmd) || cmd == Broadcast(ModeChange(c.mode.name))
  }

  lemma StagesAreWanted(c: Core, s: Stages)
    ensures StagesDue(s, c.state, c.config, c.mode.name) <==> s == WantedStages(c)
  {
  }

  lemma ModeSends(c: Core)
    ensures forall cmd :: cmd in ModeCommands(c) <==> IsMode(c, cmd)
    ensures forall cmd :: cmd in ModeChanged(c) <==> IsNewMode(c, cmd)
  {
    hide WantedStages, StagesDue;
    forall s ensures StagesDue(s, c.state, c.config, c.mode.name) <==> s == WantedStages(c) {
      StagesAreWanted(c, s);
    }
  }

  lemma Selects(c: Core)
    ensures SelectAutoMode(c) == (c.(mode := Settled(c)), Settled(c) != c.mode)
  {
    if c.mode.Auto? && AutoModeName(c) == c.mode.name {
      assert Auto(c.mode.name) == c.mode;
    }
  }

  lemma ReapplyingSends(c: Core)
    ensures ReapplyAutoMode(c).core == c.(mode := Settled(c))
    ensures forall cmd :: cmd in ReapplyAutoMode(c).cmds <==> Settled(c) != c.mode && IsNewMode(c.(mode := Settled(c)), cmd)
  {
    hide ModeChanged, SelectAutoMode, Settled, IsNewMode;
    Selects(c);
    ModeSends(c.(mode := Settled(c)));
  }

  predicate IsLeaving(c: Core, cmd: Command) {
    var d := c.(state := Active, mode := Settled(c));
    cmd == CancelWake || cmd == Undim || cmd == Screen(true) || IsMode(d, cmd)
    || (Settled(c) != c.mode && cmd == Broadcast(ModeChange(d.mode.name)))
  }

  lemma LeavingSends(c: Core)
    ensures LeaveCycle(c).core == c.(state := Active, mode := Settled(c))
    ensures forall cmd :: cmd in LeaveCycle(c).cmds <==> IsLeaving(c, cmd)
  {
    hide ModeCommands, SelectAutoMode, Settled, IsMode;
    Selects(c.(state := Active));
    assert Settled(c.(state := Active)) == Settled(c) by { SettledDepends(c, c.(state := Active)); }
    ModeSends(c.(state := Active, mode := Settled(c)));
  }

  lemma SettledDepends(c: Core, d: Core)
    requires c.config == d.config && c.mode == d.mode && c.ac == d.ac && c.low == d.low
    ensures Settled(c) == Settled(d)
  {
  }

  lemma BackSends(c: Core)
    ensures PowerIsBack(c).core == c.(state := Active, mode := Settled(c))
    ensures forall cmd :: cmd in PowerIsBack(c).cmds <==>
              IsLeaving(c, cmd) || (cmd.RunHook? && c.config.server.resumeHook == Some(cmd.hook))
  {
    hide LeaveCycle, IsLeaving, Settled;
    LeavingSends(c);
  }

  predicate IsFailing(c: Core, cmd: Command) {
    if c.sleepFailures + 1 >= MAX_SLEEP_FAILURES then IsLeaving(c, cmd)
    else cmd == StartTimer(AwakeWindow, c.config.server.awakeWindow)
  }

  lemma FailingSends(c: Core)
    requires c.state == LongSleep(Armed)
    ensures CycleFailure(c).core.state == Failed(c)
    ensures CycleFailure(c).core.mode == if Failed(c) == Active then Settled(c) else c.mode
    ensures forall cmd :: cmd in CycleFailure(c).cmds <==> IsFailing(c, cmd)
  {
    hide LeaveCycle, Settled, IsMode;
    var d := c.(sleepFailures := c.sleepFailures + 1);
    LeavingSends(d);
    LeavingDepends(c, d);
  }

  /** What is sent on the way out depends on nothing that changes on the way. */
  lemma LeavingDepends(c: Core, d: Core)
    requires c.config == d.config && c.mode == d.mode && c.ac == d.ac && c.low == d.low
    ensures Settled(c) == Settled(d)
    ensures forall cmd :: IsLeaving(c, cmd) <==> IsLeaving(d, cmd)
  {
    hide Settled, IsMode;
    SettledDepends(c, d);
    ModeDepends(c.(state := Active, mode := Settled(c)), d.(state := Active, mode := Settled(d)));
  }

  lemma ModeDepends(c: Core, d: Core)
    requires c.config == d.config && c.mode == d.mode && c.state == d.state
    ensures forall cmd :: IsMode(c, cmd) <==> IsMode(d, cmd)
  {
    hide StagesDue;
  }

  predicate IsCritical(c: Core, cmd: Command) {
    OutOfPower(c)
    && (cmd == Broadcast(PhaseChange(Critical)) || cmd == (if HibernatesAtLast(c) then GoToSleep(Hibernate, true) else PowerOff))
  }

  lemma CheckingSends(c: Core)
    ensures CheckPower(c).core == if c.ac then c.(state := Active, mode := Settled(c)) else c.(state := LongSleep(Checking))
    ensures forall cmd :: cmd in CheckPower(c).cmds <==>
              if c.ac then IsLeaving(c, cmd) || (cmd.RunHook? && c.config.server.resumeHook == Some(cmd.hook))
              else IsCritical(c, cmd) || cmd == StartTimer(AwakeWindow, c.config.server.awakeWindow)
  {
    hide PowerIsBack, IsLeaving, Settled, BatteryCritical, OutOfPower;
    BackSends(c);
    Conditions(c);
  }

  // ---------------------------------------------------------------- events

  /** All but what lights the panel and what takes a timer of the cycle back,
      which `Outcomes` has already. */
  predicate Ours(cmd: Command) {
    match cmd
    case Undim => false
    case Screen(on) => !on
    case CancelTimer(id) => !CycleTimer(id)
    case _ => true
  }

  /** The broadcasts that follow every change of state. */
  predicate Announces(cmd: Command) {
    cmd.Broadcast? && (cmd.event.StateChange? || (cmd.event.PhaseChange? && cmd.event.phaseLabel != Critical))
  }

  /** What is due before they are added. */
  predicate DueHere(c: Core, e: Event, n: State, m: ModeSelection, cmd: Command) {
    !Announces(cmd) && Due(c, e, n, m, cmd)
  }

  ghost predicate SentAre(c: Core, e: Event, o: Out) {
    forall cmd | Ours(cmd) :: cmd in o.cmds <==> DueHere(c, e, o.core.state, o.core.mode, cmd)
  }

  /** The same before the reply to a request is added. */
  ghost predicate SentBeforeReply(c: Core, e: Event, o: Out) {
    forall cmd | Ours(cmd) :: cmd in o.cmds <==> !cmd.Reply? && DueHere(c, e, o.core.state, o.core.mode, cmd)
  }

  /** What `Due` asks of the machine. */
  ghost predicate InOrder(c: Core) {
    NoRetryInCycle(c) && AutoModeOk(c)
  }

  lemma StaysSettled(c: Core)
    requires AutoModeOk(c)
    ensures Settled(c) == c.mode
  {
  }

  predicate IsReaction(c: Core, cmd: Command) {
    || (c.pendingSleep && cmd == CancelTimer(SleepRetry))
    || (match c.state
        case LongSleep(Armed) => IsFailing(c, cmd)
        case LongSleep(Checking) => cmd == CancelTimer(AwakeWindow) || IsLeaving(c, cmd)
        case Dimmed => cmd == Undim
        case ScreenOff | Suspending => cmd == Undim || cmd == Screen(true)
        case _ => false)
  }

  lemma DroppingSends(c: Core)
    ensures CancelPendingSleep(c).core == c.(pendingSleep := false)
    ensures forall cmd :: cmd in CancelPendingSleep(c).cmds <==> c.pendingSleep && cmd == CancelTimer(SleepRetry)
  {
  }

  ghost predicate Reacts(c: Core) {
    var o := OnActivity(c);
    && o.core.state == Woken(c)
    && o.core.mode == (if c.state.LongSleep? && Woken(c) == Active then Settled(c) else c.mode)
    && forall cmd :: cmd in o.cmds <==> IsReaction(c, cmd)
  }

  lemma ReactionSends(c: Core)
    ensures Reacts(c)
  {
    hide Reacts;
    if c.state == LongSleep(Armed) {
      ArmedReacts(c);
    } else if c.state == LongSleep(Checking) {
      CheckingReacts(c);
    } else {
      OutsideReacts(c);
    }
  }

  lemma OutsideReacts(c: Core)
    requires c.state != LongSleep(Armed) && c.state != LongSleep(Checking)
    ensures Reacts(c)
  {
    hide CycleFailure, LeaveCycle, Settled, IsLeaving, CancelPendingSleep, IsFailing;
    DroppingSends(c);
  }

  lemma CheckingReacts(c: Core)
    requires c.state == LongSleep(Checking)
    ensures Reacts(c)
  {
    hide CycleFailure, LeaveCycle, Settled, IsLeaving, CancelPendingSleep, IsFailing;
    DroppingSends(c);
    var d := c.(pendingSleep := false, interrupted := true);
    LeavingSends(d);
    LeavingDepends(c, d);
  }

  lemma ArmedReacts(c: Core)
    requires c.state == LongSleep(Armed)
    ensures Reacts(c)
  {
    hide CycleFailure, LeaveCycle, Settled, IsLeaving, CancelPendingSleep, IsFailing;
    DroppingSends(c);
    FailedReaction(c);
  }

  lemma FailedReaction(c: Core)
    requires c.state == LongSleep(Armed)
    ensures var o := CycleFailure(c.(pendingSleep := false));
            && o.core.state == Failed(c) && o.core.mode == (if Failed(c) == Active then Settled(c) else c.mode)
            && forall cmd :: cmd in o.cmds <==> IsFailing(c, cmd)
  {
    hide CycleFailure, Settled, IsLeaving;
    var d := c.(pendingSleep := false);
    FailingSends(d);
    LeavingDepends(c, d);
  }

  predicate Reacting(c: Core, e: Event) {
    IsActivity(e) || (e == SleepFailed && c.state == Suspending)
  }

  lemma ArmedReactionDue(c: Core, e: Event, cmd: Command)
    requires InOrder(c) && Reacting(c, e) && Ours(cmd) && c.state == LongSleep(Armed)
    ensures IsReaction(c, cmd) <==> !cmd.Reply? && DueHere(c, e, Woken(c), c.mode, cmd)
  {
    hide Settled, StagesDue, AutoModeOk, Undims, TurnsOn, Hindered, OutOfPower, Holds, AnswerTo, HasInhibit;
    StaysSettled(c);
  }

  lemma CheckingReactionDue(c: Core, e: Event, cmd: Command)
    requires InOrder(c) && Reacting(c, e) && Ours(cmd) && c.state == LongSleep(Checking)
    ensures IsReaction(c, cmd) <==> !cmd.Reply? && DueHere(c, e, Woken(c), c.mode, cmd)
  {
    hide Settled, StagesDue, AutoModeOk, Undims, TurnsOn, Hindered, OutOfPower, Holds, AnswerTo, HasInhibit, IsFailing;
    StaysSettled(c);
  }

  lemma OtherReactionDue(c: Core, e: Event, cmd: Command)
    requires InOrder(c) && Reacting(c, e) && Ours(cmd) && c.state != LongSleep(Armed) && c.state != LongSleep(Checking)
    ensures IsReaction(c, cmd) <==> !cmd.Reply? && DueHere(c, e, Woken(c), c.mode, cmd)
  {
    hide Settled, StagesDue, AutoModeOk, Undims, TurnsOn, Hindered, OutOfPower, Holds, AnswerTo, HasInhibit, IsFailing, IsLeaving;
    StaysSettled(c);
  }

  lemma ActivityDue(c: Core, e: Event, cmd: Command)
    requires InOrder(c) && Reacting(c, e) && Ours(cmd)
    ensures IsReaction(c, cmd) <==> !cmd.Reply? && DueHere(c, e, Woken(c), c.mode, cmd)
  {
    hide Reacting, DueHere, IsReaction, Ours, InOrder;
    if c.state == LongSleep(Armed) {
      ArmedReactionDue(c, e, cmd);
    } else if c.state == LongSleep(Checking) {
      CheckingReactionDue(c, e, cmd);
    } else {
      OtherReactionDue(c, e, cmd);
    }
  }

  lemma ActivitySends(c: Core, e: Event)
    requires InOrder(c) && Reacting(c, e)
    ensures SentBeforeReply(c, e, OnActivity(c))
  {
    hide OnActivity, DueHere, IsReaction, Settled, Ours;
    ReactionSends(c);
    StaysSettled(c);
    forall cmd | Ours(cmd) ensures IsReaction(c, cmd) <==> !cmd.Reply? && DueHere(c, e, Woken(c), c.mode, cmd) {
      ActivityDue(c, e, cmd);
    }
  }

  lemma TryingSends(c: Core, force: bool, armRetry: bool)
    ensures var o := TrySleep(c, force, armRetry);
            && o.core.mode == c.mode && o.core.state == (if force || !Hindered(c) then Suspending else c.state)
            && forall cmd :: cmd in o.cmds <==>
                 if force || !Hindered(c) then cmd == GoToSleep(c.config.sleep.how, force)
                 else armRetry && c.config.sleep.retry > 0 && cmd == StartTimer(SleepRetry, c.config.sleep.retry)
  {
    hide Blocked, Hindered;
    Conditions(c);
  }

  lemma GraceSends(c: Core, delay: Duration)
    ensures var o := EnterGrace(c, delay);
            && o.core.mode == c.mode && o.core.state == LongSleep(Grace)
            && forall cmd :: cmd in o.cmds <==>
                 (c.pendingSleep && cmd == CancelTimer(SleepRetry)) || cmd == StartTimer(GraceTimer, delay)
  {
  }

  predicate IsArming(c: Core, first: bool, cmd: Command) {
    cmd == ScheduleWake(c.config.server.checkInterval) || (first && cmd == ReplaceIdleStages(NO_STAGES))
  }

  lemma ArmingSends(c: Core, first: bool)
    ensures Arm(c, first).core == c.(state := LongSleep(Armed))
    ensures forall cmd :: cmd in Arm(c, first).cmds <==> IsArming(c, first, cmd)
  {
  }

  // -- idleness

  predicate IsIdling(c: Core, stage: Stage, cmd: Command) {
    && !Holds(c.inhibits, InhibitIdle)
    && (match stage
        case DimStage => c.state == Active && cmd == Dim(c.config.dimPercent)
        case ScreenOffStage => (c.state == Active || c.state == Dimmed) && cmd == Screen(false)
        case SleepStage =>
          && c.state.IsAwake()
          && (if Hindered(c) then c.config.sleep.retry > 0 && cmd == StartTimer(SleepRetry, c.config.sleep.retry)
              else cmd == GoToSleep(c.config.sleep.how, false)))
  }

  lemma IdleDue(c: Core, stage: Stage, cmd: Command)
    requires InOrder(c) && Ours(cmd)
    ensures IsIdling(c, stage, cmd) <==> DueHere(c, Idle(stage), NextOnIdle(c, stage), c.mode, cmd)
  {
    hide Settled, StagesDue, AutoModeOk, Undims, TurnsOn, Hindered, Holds;
  }

  lemma IdlingSends(c: Core, stage: Stage)
    ensures OnIdle(c, stage).core.mode == c.mode
    ensures forall cmd :: cmd in OnIdle(c, stage).cmds <==> IsIdling(c, stage, cmd)
  {
    hide TrySleep, Hindered, Holds, IdleInhibited;
    Conditions(c);
    TryingSends(c, false, true);
  }

  lemma IdleSends(c: Core, stage: Stage)
    requires InOrder(c)
    ensures SentAre(c, Idle(stage), OnIdle(c, stage))
  {
    hide OnIdle, DueHere, Ours, InOrder, IsIdling, NextOnIdle;
    IdleGoes(c, stage);
    IdlingSends(c, stage);
    forall cmd | Ours(cmd) ensures IsIdling(c, stage, cmd) <==> DueHere(c, Idle(stage), NextOnIdle(c, stage), c.mode, cmd) {
      IdleDue(c, stage, cmd);
    }
  }

  // -- timers

  predicate IsFiring(c: Core, id: TimerId, cmd: Command) {
    match id
    case SleepRetry =>
      && c.pendingSleep
      && (if Hindered(c) then c.config.sleep.retry > 0 && cmd == StartTimer(SleepRetry, c.config.sleep.retry)
          else cmd == GoToSleep(c.config.sleep.how, false))
    case GraceTimer => c.state == LongSleep(Grace) && IsArming(c, true, cmd)
    case AwakeWindow =>
      && (c.state == LongSleep(Armed) || c.state == LongSleep(Checking))
      && (if c.ac then IsLeaving(c, cmd) || (cmd.RunHook? && c.config.server.resumeHook == Some(cmd.hook))
          else if c.state == LongSleep(Checking) && OutOfPower(c) then
            IsCritical(c, cmd) || cmd == StartTimer(AwakeWindow, c.config.server.awakeWindow)
          else IsArming(c, false, cmd))
    case InhibitExpiry(_) => false
  }

  ghost predicate FiresAs(c: Core, id: TimerId) {
    var o := OnTimer(c, id);
    && o.core.mode == (if o.core.state == Active && c.state.LongSleep? then Settled(c) else c.mode)
    && forall cmd :: cmd in o.cmds <==> IsFiring(c, id, cmd)
  }

  lemma RetryFires(c: Core)
    requires NoRetryInCycle(c)
    ensures FiresAs(c, SleepRetry)
  {
    hide Settled, Hindered, TrySleep;
    var d := c.(pendingSleep := false);
    HinderedDepends(c, d);
    TryingSends(d, false, true);
  }

  lemma WindowFires(c: Core)
    ensures FiresAs(c, AwakeWindow)
  {
    hide Settled, IsLeaving, IsArming, PowerIsBack, CheckPower, Arm, BatteryCritical, OutOfPower, IsCritical;
    Conditions(c);
    BackSends(c);
    CheckingSends(c);
    ArmingSends(c, false);
  }

  lemma GraceFires(c: Core)
    ensures FiresAs(c, GraceTimer)
  {
    hide Settled, IsArming, Arm;
    ArmingSends(c, true);
  }

  lemma ExpiryFires(c: Core, i: nat)
    ensures FiresAs(c, InhibitExpiry(i))
  {
    hide Settled, RemoveInhibit;
  }

  lemma RetryDue(c: Core, cmd: Command)
    requires InOrder(c) && Ours(cmd)
    ensures IsFiring(c, SleepRetry, cmd) <==> DueHere(c, TimerFired(SleepRetry), NextOnTimer(c, SleepRetry), c.mode, cmd)
  {
    hide Settled, AutoModeOk, Undims, TurnsOn, Hindered, Holds, StagesAre, AnswerTo, HasInhibit, OutOfPower;
    StaysSettled(c);
  }

  lemma WindowOnAcDue(c: Core, cmd: Command)
    requires InOrder(c) && Ours(cmd) && c.ac
    ensures IsFiring(c, AwakeWindow, cmd) <==> DueHere(c, TimerFired(AwakeWindow), NextOnTimer(c, AwakeWindow), c.mode, cmd)
  {
    hide Settled, AutoModeOk, Undims, TurnsOn, Hindered, Holds, StagesAre, AnswerTo, HasInhibit;
    StaysSettled(c);
  }

  lemma WindowOnBatteryDue(c: Core, cmd: Command)
    requires InOrder(c) && Ours(cmd) && !c.ac
    ensures IsFiring(c, AwakeWindow, cmd) <==> DueHere(c, TimerFired(AwakeWindow), NextOnTimer(c, AwakeWindow), c.mode, cmd)
  {
    hide Settled, AutoModeOk, Undims, TurnsOn, Hindered, Holds, StagesAre, AnswerTo, HasInhibit;
    StaysSettled(c);
  }

  lemma GraceDue(c: Core, cmd: Command)
    requires InOrder(c) && Ours(cmd)
    ensures IsFiring(c, GraceTimer, cmd) <==> DueHere(c, TimerFired(GraceTimer), NextOnTimer(c, GraceTimer), c.mode, cmd)
  {
    hide Settled, AutoModeOk, Undims, TurnsOn, Hindered, Holds, StagesAre, AnswerTo, HasInhibit, OutOfPower;
    StaysSettled(c);
  }

  lemma ExpiryDue(c: Core, i: nat, cmd: Command)
    requires InOrder(c) && Ours(cmd)
    ensures IsFiring(c, InhibitExpiry(i), cmd) <==> DueHere(c, TimerFired(InhibitExpiry(i)), NextOnTimer(c, InhibitExpiry(i)), c.mode, cmd)
  {
    hide Settled, AutoModeOk, Undims, TurnsOn, Hindered, Holds, StagesAre, AnswerTo, HasInhibit, OutOfPower;
    StaysSettled(c);
  }

  lemma TimerSends(c: Core, id: TimerId)
    requires InOrder(c)
    ensures SentAre(c, TimerFired(id), OnTimer(c, id))
  {
    hide OnTimer, DueHere, IsFiring, Ours, NextOnTimer, Settled;
    TimerGoes(c, id);
    StaysSettled(c);
    assert FiresAs(c, id) by {
      hide FiresAs;
      match id
      case SleepRetry => RetryFires(c);
      case AwakeWindow => WindowFires(c);
      case GraceTimer => GraceFires(c);
      case InhibitExpiry(i) => ExpiryFires(c, i);
    }
    forall cmd | Ours(cmd) ensures IsFiring(c, id, cmd) <==> DueHere(c, TimerFired(id), NextOnTimer(c, id), c.mode, cmd) {
      match id
      case SleepRetry => RetryDue(c, cmd);
      case AwakeWindow => if c.ac { WindowOnAcDue(c, cmd); } else { WindowOnBatteryDue(c, cmd); }
      case GraceTimer => GraceDue(c, cmd);
      case InhibitExpiry(i) => ExpiryDue(c, i, cmd);
    }
  }

  // -- power

  predicate IsSwitch(c: Core, cmd: Command) {
    Settled(c) != c.mode && IsNewMode(c.(mode := Settled(c)), cmd)
  }

  predicate IsMoving(c: Core, ac: bool, cmd: Command) {
    && ac != c.ac
    && (var d := c.(ac := ac);
        || cmd == Broadcast(PowerChange(ac))
        || (c.state == LongSleep(Grace) && ac && (cmd == CancelTimer(GraceTimer) || IsSwitch(d.(state := Active), cmd)))
        || (c.state == LongSleep(Checking) && ac
            && (cmd == CancelTimer(AwakeWindow) || IsLeaving(d, cmd)
                || (cmd.RunHook? && c.config.server.resumeHook == Some(cmd.hook))))
        || (!(ac && (c.state == LongSleep(Grace) || c.state == LongSleep(Checking)))
            && (IsSwitch(d, cmd)
                || (NextOnAc(c, ac) == LongSleep(Grace) && !c.state.LongSleep?
                    && ((c.pendingSleep && cmd == CancelTimer(SleepRetry))
                        || cmd == StartTimer(GraceTimer, c.config.server.gracePeriod))))))
  }

  ghost predicate MovesAs(c: Core, ac: bool) {
    var o := OnAcChanged(c, ac);
    && o.core.mode == (if ac == c.ac then c.mode else Settled(c.(ac := ac)))
    && forall cmd :: cmd in o.cmds <==> IsMoving(c, ac, cmd)
  }

  lemma GraceOverMoves(c: Core)
    requires c.state == LongSleep(Grace) && !c.ac
    ensures MovesAs(c, true)
  {
    hide Settled, IsNewMode, ReapplyAutoMode, EnterGrace, PowerIsBack, IsLeaving;
    var d := c.(ac := true, state := Active);
    ReapplyingSends(d);
    SettledDepends(d, c.(ac := true));
  }

  lemma CheckingOverMoves(c: Core)
    requires c.state == LongSleep(Checking) && !c.ac
    ensures MovesAs(c, true)
  {
    hide Settled, IsNewMode, ReapplyAutoMode, EnterGrace, PowerIsBack, IsLeaving;
    BackSends(c.(ac := true));
  }

  lemma ElseMoves(c: Core, ac: bool)
    requires c.ac != ac && !(ac && (c.state == LongSleep(Grace) || c.state == LongSleep(Checking)))
    ensures MovesAs(c, ac)
  {
    hide Settled, IsNewMode, ReapplyAutoMode, EnterGrace, PowerIsBack, IsLeaving;
    ReapplyingSends(c.(ac := ac));
    GraceSends(ReapplyAutoMode(c.(ac := ac)).core, c.config.server.gracePeriod);
  }

  lemma GraceOverDue(c: Core, cmd: Command)
    requires InOrder(c) && Ours(cmd) && c.state == LongSleep(Grace) && !c.ac
    ensures IsMoving(c, true, cmd) <==> DueHere(c, AcChanged(true), NextOnAc(c, true), Settled(c.(ac := true)), cmd)
  {
    hide Settled, AutoModeOk, Undims, TurnsOn, Hindered, Holds, StagesAre, AnswerTo, HasInhibit, OutOfPower;
    SettledDepends(c.(ac := true), c.(ac := true, state := Active));
  }

  lemma CheckingOverDue(c: Core, cmd: Command)
    requires InOrder(c) && Ours(cmd) && c.state == LongSleep(Checking) && !c.ac
    ensures IsMoving(c, true, cmd) <==> DueHere(c, AcChanged(true), NextOnAc(c, true), Settled(c.(ac := true)), cmd)
  {
    hide Settled, AutoModeOk, Undims, TurnsOn, Hindered, Holds, StagesAre, AnswerTo, HasInhibit, OutOfPower;
    SettledDepends(c.(ac := true), c.(ac := true, state := Active));
  }

  lemma ElseDue(c: Core, ac: bool, cmd: Command)
    requires InOrder(c) && Ours(cmd) && c.ac != ac && !(ac && (c.state == LongSleep(Grace) || c.state == LongSleep(Checking)))
    ensures IsMoving(c, ac, cmd) <==> DueHere(c, AcChanged(ac), NextOnAc(c, ac), Settled(c.(ac := ac)), cmd)
  {
    hide Settled, AutoModeOk, Undims, TurnsOn, Hindered, Holds, StagesAre, AnswerTo, HasInhibit, OutOfPower;
    SettledDepends(c.(ac := ac), c.(ac := ac, state := Active));
  }

  lemma NothingDue(c: Core, cmd: Command)
    requires InOrder(c) && Ours(cmd)
    ensures !DueHere(c, AcChanged(c.ac), NextOnAc(c, c.ac), c.mode, cmd)
  {
    hide Settled, AutoModeOk, Undims, TurnsOn, Hindered, Holds, StagesAre, AnswerTo, HasInhibit, OutOfPower;
  }

  lemma MovingDue(c: Core, ac: bool, cmd: Command)
    requires InOrder(c) && Ours(cmd)
    ensures var m := if ac == c.ac then c.mode else Settled(c.(ac := ac));
            IsMoving(c, ac, cmd) <==> DueHere(c, AcChanged(ac), NextOnAc(c, ac), m, cmd)
  {
    hide DueHere, NextOnAc, Settled;
    if ac == c.ac {
      NothingDue(c, cmd);
    } else {
      hide IsMoving;
      if ac && c.state == LongSleep(Grace) {
        GraceOverDue(c, cmd);
      } else if ac && c.state == LongSleep(Checking) {
        CheckingOverDue(c, cmd);
      } else {
        ElseDue(c, ac, cmd);
      }
    }
  }

  lemma AcSends(c: Core, ac: bool)
    requires InOrder(c)
    ensures SentAre(c, AcChanged(ac), OnAcChanged(c, ac))
  {
    hide DueHere, IsMoving, Ours, NextOnAc, Settled;
    AcGoes(c, ac);
    assert MovesAs(c, ac) by {
      hide MovesAs;
      if ac == c.ac {
        NothingMoves(c);
      } else if ac && c.state == LongSleep(Grace) {
        GraceOverMoves(c);
      } else if ac && c.state == LongSleep(Checking) {
        CheckingOverMoves(c);
      } else {
        ElseMoves(c, ac);
      }
    }
    hide OnAcChanged;
    var m := if ac == c.ac then c.mode else Settled(c.(ac := ac));
    forall cmd | Ours(cmd) ensures IsMoving(c, ac, cmd) <==> DueHere(c, AcChanged(ac), NextOnAc(c, ac), m, cmd) {
      MovingDue(c, ac, cmd);
    }
  }

  lemma NothingMoves(c: Core)
    ensures MovesAs(c, c.ac)
  {
  }

  lemma Hears(c: Core, percent: nat)
    ensures Heard(c, Battery(percent)) == OnBatteryReading(c, percent)
  {
  }

  lemma ReadingDue(c: Core, percent: nat, cmd: Command)
    requires InOrder(c) && Ours(cmd)
    ensures var d := Heard(c, Battery(percent));
            IsSwitch(d, cmd) <==> DueHere(c, Battery(percent), c.state, Settled(d), cmd)
  {
    hide Settled, AutoModeOk, Undims, TurnsOn, Hindered, Holds, StagesAre, LowAt;
  }

  lemma ReadingSends(c: Core, percent: nat)
    requires AutoModeOk(c)
    ensures var o, d := OnBattery(c, percent), Heard(c, Battery(percent));
            && o.core == d.(mode := Settled(d))
            && forall cmd :: cmd in o.cmds <==> IsSwitch(d, cmd)
  {
    hide IsNewMode, ReapplyAutoMode, LowAt, ComputeLow;
    var d := Heard(c, Battery(percent));
    Hears(c, percent);
    ReapplyingSends(d);
    if d.low == c.low {
      SettledDepends(c, d);
      StaysSettled(c);
    }
  }

  lemma BatterySends(c: Core, percent: nat)
    requires InOrder(c)
    ensures SentAre(c, Battery(percent), OnBattery(c, percent))
  {
    hide OnBattery, DueHere, IsSwitch, Ours, Settled, LowAt, AutoModeOk;
    var d := Heard(c, Battery(percent));
    ReadingSends(c, percent);
    forall cmd | Ours(cmd) ensures IsSwitch(d, cmd) <==> DueHere(c, Battery(percent), c.state, Settled(d), cmd) {
      ReadingDue(c, percent, cmd);
    }
  }

  // -- waking up

  predicate IsWaking(c: Core, byUser: bool, cmd: Command) {
    if !c.state.LongSleep? then
      cmd == Undim || cmd == Screen(true) || (cmd.ReplaceIdleStages? && StagesAre(cmd.stages, c.config, c.mode.name))
    else if c.ac then IsLeaving(c, cmd) || (cmd.RunHook? && c.config.server.resumeHook == Some(cmd.hook))
    else if byUser then IsLeaving(c, cmd)
    else IsCritical(c, cmd) || cmd == StartTimer(AwakeWindow, c.config.server.awakeWindow)
  }

  ghost predicate WakesAs(c: Core, byUser: bool) {
    var o := OnResumed(c, byUser);
    && o.core.mode == (if c.state.LongSleep? && o.core.state == Active then Settled(c) else c.mode)
    && forall cmd :: cmd in o.cmds <==> IsWaking(c, byUser, cmd)
  }

  lemma WakesOutside(c: Core, byUser: bool)
    requires !c.state.LongSleep?
    ensures WakesAs(c, byUser)
  {
    hide StagesAre, CurrentStages;
    var d := c.(pendingSleep := false, state := Active);
    forall s ensures StagesAre(s, c.config, c.mode.name) <==> s == CurrentStages(d) {
      CurrentStagesAre(d, s);
    }
  }

  lemma CurrentStagesAre(c: Core, s: Stages)
    ensures StagesAre(s, c.config, c.mode.name) <==> s == CurrentStages(c)
  {
  }

  lemma WakesInCycle(c: Core, byUser: bool)
    requires c.state.LongSleep?
    ensures WakesAs(c, byUser)
  {
    hide Settled, IsLeaving, CheckPower, LeaveCycle, OutOfPower;
    var d := c.(pendingSleep := false);
    CheckingSends(d);
    LeavingSends(d.(interrupted := true));
    LeavingDepends(c, d);
    LeavingDepends(c, d.(interrupted := true));
    assert OutOfPower(d) == OutOfPower(c) by { PowerDepends(c, d); }
  }

  lemma PowerDepends(c: Core, d: Core)
    requires c.config == d.config && c.ac == d.ac && c.battery == d.battery
    ensures OutOfPower(c) <==> OutOfPower(d)
  {
  }

  lemma WakingOutsideDue(c: Core, byUser: bool, cmd: Command)
    requires InOrder(c) && Ours(cmd) && !c.state.LongSleep?
    ensures var e := if byUser then ResumedByUser else Resumed;
            IsWaking(c, byUser, cmd) <==> DueHere(c, e, NextState(c, e), c.mode, cmd)
  {
    hide Settled, AutoModeOk, Undims, TurnsOn, Hindered, Holds, StagesAre, AnswerTo, HasInhibit, OutOfPower;
    StaysSettled(c);
  }

  lemma WakingOnAcDue(c: Core, byUser: bool, cmd: Command)
    requires InOrder(c) && Ours(cmd) && c.state.LongSleep? && c.ac
    ensures var e := if byUser then ResumedByUser else Resumed;
            IsWaking(c, byUser, cmd) <==> DueHere(c, e, NextState(c, e), c.mode, cmd)
  {
    hide Settled, AutoModeOk, Undims, TurnsOn, Hindered, Holds, StagesAre, AnswerTo, HasInhibit;
    StaysSettled(c);
  }

  lemma WakingOnBatteryDue(c: Core, byUser: bool, cmd: Command)
    requires InOrder(c) && Ours(cmd) && c.state.LongSleep? && !c.ac
    ensures var e := if byUser then ResumedByUser else Resumed;
            IsWaking(c, byUser, cmd) <==> DueHere(c, e, NextState(c, e), c.mode, cmd)
  {
    hide Settled, AutoModeOk, Undims, TurnsOn, Hindered, Holds, StagesAre, AnswerTo, HasInhibit;
    StaysSettled(c);
  }

  lemma ResumedSends(c: Core, byUser: bool)
    requires InOrder(c)
    ensures SentAre(c, if byUser then ResumedByUser else Resumed, OnResumed(c, byUser))
  {
    hide OnResumed, DueHere, IsWaking, Ours, Settled, NextState;
    var e := if byUser then ResumedByUser else Resumed;
    ResumedGoes(c, byUser);
    StaysSettled(c);
    assert WakesAs(c, byUser) by {
      hide WakesAs;
      if c.state.LongSleep? {
        WakesInCycle(c, byUser);
      } else {
        WakesOutside(c, byUser);
      }
    }
    forall cmd | Ours(cmd) ensures IsWaking(c, byUser, cmd) <==> DueHere(c, e, NextState(c, e), c.mode, cmd) {
      if !c.state.LongSleep? {
        WakingOutsideDue(c, byUser, cmd);
      } else if c.ac {
        WakingOnAcDue(c, byUser, cmd);
      } else {
        WakingOnBatteryDue(c, byUser, cmd);
      }
    }
  }

  // -- the answers of logind and the RTC

  predicate IsAnswered(c: Core, e: Event, cmd: Command) {
    if c.state == LongSleep(Armed) then
      if AttemptFailed(c, e) then IsFailing(c, cmd)
      else if e.WakeScheduled? then
        if c.ac then IsLeaving(c, cmd) || (cmd.RunHook? && c.config.server.resumeHook == Some(cmd.hook))
        else cmd == GoToSleep(c.config.sleep.how, false)
      else false
    else if c.state == Suspending then
      if e.SleepFailed? then IsReaction(c, cmd)
      else e.SleepBlocked? && c.config.sleep.retry > 0 && cmd == StartTimer(SleepRetry, c.config.sleep.retry)
    else false
  }

  predicate IsAnswer(e: Event) {
    e.SleepBlocked? || e.SleepFailed? || e.WakeScheduled?
  }

  ghost predicate AnsweredAs(c: Core, e: Event) {
    var o := Dispatch(c, e);
    && o.core.mode == (if c.state.LongSleep? && o.core.state == Active then Settled(c) else c.mode)
    && forall cmd :: cmd in o.cmds <==> IsAnswered(c, e, cmd)
  }

  lemma RefusalAnswered(c: Core, list: seq<Inhibitor>)
    requires NoRetryInCycle(c)
    ensures AnsweredAs(c, SleepBlocked(list))
  {
    hide Settled, IsLeaving, CycleFailure;
    var d := c.(external := list);
    if c.state == LongSleep(Armed) {
      FailingSends(d);
      LeavingDepends(c, d);
    }
  }

  lemma FailureAnswered(c: Core)
    ensures AnsweredAs(c, SleepFailed)
  {
    hide Settled, CycleFailure, OnActivity, IsFailing, IsReaction;
    if c.state == LongSleep(Armed) {
      FailingSends(c);
    } else {
      ReactionSends(c);
    }
  }

  lemma WakeAnswered(c: Core, armed: bool)
    ensures AnsweredAs(c, WakeScheduled(armed))
  {
    hide Settled, CycleFailure, PowerIsBack, IsFailing, IsLeaving, Hindered, Blocked;
    Conditions(c);
    BackSends(c);
    if c.state == LongSleep(Armed) {
      FailingSends(c);
    }
  }

  lemma RefusalDue(c: Core, list: seq<Inhibitor>, cmd: Command)
    requires InOrder(c) && Ours(cmd)
    ensures var e := SleepBlocked(list); IsAnswered(c, e, cmd) <==> DueHere(c, e, NextState(c, e), c.mode, cmd)
  {
    hide Settled, AutoModeOk, Undims, TurnsOn, Hindered, Holds, StagesAre, AnswerTo, HasInhibit, OutOfPower;
    StaysSettled(c);
  }

  lemma FailureDue(c: Core, cmd: Command)
    requires InOrder(c) && Ours(cmd)
    ensures IsAnswered(c, SleepFailed, cmd) <==> DueHere(c, SleepFailed, NextState(c, SleepFailed), c.mode, cmd)
  {
    hide Settled, AutoModeOk, Undims, TurnsOn, Hindered, Holds, StagesAre, AnswerTo, HasInhibit, OutOfPower;
    if c.state == Suspending {
      hide DueHere, IsReaction;
      ActivityDue(c, SleepFailed, cmd);
    } else {
      StaysSettled(c);
    }
  }

  lemma WakeDue(c: Core, armed: bool, cmd: Command)
    requires InOrder(c) && Ours(cmd) && c.state == LongSleep(Armed)
    ensures var e := WakeScheduled(armed); IsAnswered(c, e, cmd) <==> DueHere(c, e, NextState(c, e), c.mode, cmd)
  {
    hide Settled, AutoModeOk, Undims, TurnsOn, Hindered, Holds, StagesAre, AnswerTo, HasInhibit, OutOfPower;
    StaysSettled(c);
  }

  lemma StaleWakeDue(c: Core, armed: bool, cmd: Command)
    requires InOrder(c) && Ours(cmd) && c.state != LongSleep(Armed)
    ensures var e := WakeScheduled(armed); IsAnswered(c, e, cmd) <==> DueHere(c, e, NextState(c, e), c.mode, cmd)
  {
    hide Settled, AutoModeOk, Undims, TurnsOn, Hindered, Holds, StagesAre, AnswerTo, HasInhibit, OutOfPower;
    StaysSettled(c);
  }

  lemma AnswerSends(c: Core, e: Event)
    requires InOrder(c) && IsAnswer(e)
    ensures SentAre(c, e, Dispatch(c, e))
  {
    hide Dispatch, DueHere, IsAnswered, Ours, Settled, NextState;
    AnswerGoes(c, e);
    StaysSettled(c);
    assert AnsweredAs(c, e) by {
      hide AnsweredAs;
      match e
      case SleepBlocked(list) => RefusalAnswered(c, list);
      case SleepFailed => FailureAnswered(c);
      case WakeScheduled(armed) => WakeAnswered(c, armed);
    }
    forall cmd | Ours(cmd) ensures IsAnswered(c, e, cmd) <==> DueHere(c, e, NextState(c, e), c.mode, cmd) {
      match e
      case SleepBlocked(list) => RefusalDue(c, list, cmd);
      case SleepFailed => FailureDue(c, cmd);
      case WakeScheduled(armed) => if c.state == LongSleep(Armed) { WakeDue(c, armed, cmd); } else { StaleWakeDue(c, armed, cmd); }
    }
  }

  // -- clients

  /** What a request makes the engine send besides the reply. */
  predicate IsRequested(c: Core, id: RequestId, request: Request, cmd: Command) {
    match request
    case SetMode(name) =>
      && (name == "auto" || name in c.config.modes)
      && IsNewMode(c.(mode := if name == "auto" then Auto(Wanted(c.config, c.mode.name, c.ac, c.low)) else Manual(name)), cmd)
    case RequestDim => c.state == Active && cmd == Dim(c.config.dimPercent)
    case RequestUndim => IsReaction(c, cmd)
    case RequestScreen(on) =>
      if on then IsReaction(c, cmd) else (c.state == Active || c.state == Dimmed) && cmd == Screen(false)
    case RequestSleep(force) =>
      !c.state.LongSleep? && (force || !Hindered(c)) && cmd == GoToSleep(c.config.sleep.how, force)
    case RequestLongSleep(cancel) =>
      if cancel then c.state.LongSleep? && IsLeaving(c, cmd)
      else
        && c.state.IsAwake() && c.config.server.enabled
        && ((c.pendingSleep && cmd == CancelTimer(SleepRetry)) || cmd == StartTimer(GraceTimer, 0))
    case AddInhibit(_, _, ttl) =>
      ttl > 0 && cmd == StartTimer(InhibitExpiry(c.nextInhibitId), Min(ttl, MAX_INHIBIT_TTL))
    case Uninhibit(i) => HasInhibit(c.inhibits, i) && cmd == CancelTimer(InhibitExpiry(i))
    case RequestReload => cmd == Reload(Some(id))
    case _ => false
  }

  /** The mode after a request. */
  function RequestedMode(c: Core, request: Request): ModeSelection {
    match request
    case SetMode(name) =>
      if name == "auto" then Auto(Wanted(c.config, c.mode.name, c.ac, c.low))
      else if name in c.config.modes then Manual(name) else c.mode
    case _ => c.mode
  }

  ghost predicate RequestedAs(c: Core, id: RequestId, request: Request) {
    var o := OnIpc(c, id, request);
    && o.core.mode == RequestedMode(c, request)
    && forall cmd | Ours(cmd) ::
         cmd in o.cmds <==> IsRequested(c, id, request, cmd) || (request != RequestReload && cmd == Reply(id, AnswerTo(c, request)))
  }

  lemma WantedName(c: Core)
    ensures AutoModeName(c) == Wanted(c.config, c.mode.name, c.ac, c.low)
  {
  }

  lemma ModeRequested(c: Core, id: RequestId, name: string)
    ensures RequestedAs(c, id, SetMode(name))
  {
    hide ModeChanged, IsNewMode, Ours, AutoModeName, Wanted;
    WantedName(c);
    ModeSends(OnSetMode(c, id, name).core);
  }

  lemma ActivityRequested(c: Core, id: RequestId, request: Request)
    requires InOrder(c) && (request == RequestUndim || request == RequestScreen(true))
    ensures RequestedAs(c, id, request)
  {
    hide OnActivity, IsReaction, Settled, Ours;
    StaysSettled(c);
    ReactionSends(c);
  }

  lemma CancellingSends(c: Core, phase: Phase)
    ensures CancelCycle(c, phase).core == c.(interrupted := false, state := Active, mode := Settled(c))
    ensures forall cmd | Ours(cmd) :: cmd in CancelCycle(c, phase).cmds <==> IsLeaving(c, cmd)
  {
    hide LeaveCycle, IsLeaving, Settled;
    LeavingSends(c.(interrupted := false));
    LeavingDepends(c, c.(interrupted := false));
    assert forall cmd | Ours(cmd) :: cmd != CancelTimer(GraceTimer) && cmd != CancelTimer(AwakeWindow);
  }

  lemma CycleRequested(c: Core, id: RequestId, cancel: bool)
    requires InOrder(c)
    ensures RequestedAs(c, id, RequestLongSleep(cancel))
  {
    hide CancelCycle, EnterGrace, IsLeaving, Settled, Ours, AutoModeOk;
    StaysSettled(c);
    GraceSends(c, 0);
    if c.state.LongSleep? {
      CancellingSends(c, c.state.phase);
    }
  }

  lemma SleepRequested(c: Core, id: RequestId, force: bool)
    ensures RequestedAs(c, id, RequestSleep(force))
  {
    hide TrySleep, Blocked, Hindered, Ours;
    Conditions(c);
    TryingSends(c, force, false);
  }

  lemma TableRequested(c: Core, id: RequestId, request: Request)
    requires request.AddInhibit? || request.Uninhibit?
    ensures RequestedAs(c, id, request)
  {
    hide HasInhibit, RemoveInhibit, Ours;
  }

  lemma OtherRequested(c: Core, id: RequestId, request: Request)
    requires request in {Status, Modes, RequestDim, RequestScreen(false), RequestReload, Subscribe, Agent}
    ensures RequestedAs(c, id, request)
  {
    hide Ours;
  }

  lemma RequestedDue(c: Core, id: RequestId, request: Request, cmd: Command)
    requires InOrder(c) && Ours(cmd)
    ensures IsRequested(c, id, request, cmd) || (request != RequestReload && cmd == Reply(id, AnswerTo(c, request)))
            <==> DueHere(c, Ipc(id, request), NextOnRequest(c, request), RequestedMode(c, request), cmd)
  {
    hide DueHere, AnswerTo, Ours;
    match request
    case SetMode(name) => ModeDue(c, id, name, cmd);
    case RequestUndim => ReactionDue(c, id, request, cmd);
    case RequestScreen(on) => if on { ReactionDue(c, id, request, cmd); } else { OtherDue(c, id, request, cmd); }
    case RequestLongSleep(cancel) => CycleDue(c, id, cancel, cmd);
    case RequestSleep(force) => SleepDue(c, id, force, cmd);
    case AddInhibit(_, _, _) => TableDue(c, id, request, cmd);
    case Uninhibit(_) => TableDue(c, id, request, cmd);
    case _ => OtherDue(c, id, request, cmd);
  }

  lemma ModeDue(c: Core, id: RequestId, name: string, cmd: Command)
    requires InOrder(c) && Ours(cmd)
    ensures var request := SetMode(name);
            IsRequested(c, id, request, cmd) || cmd == Reply(id, AnswerTo(c, request))
            <==> DueHere(c, Ipc(id, request), NextOnRequest(c, request), RequestedMode(c, request), cmd)
  {
    if name == "auto" || name in c.config.modes {
      KnownModeDue(c, id, name, RequestedMode(c, SetMode(name)), cmd);
    } else {
      hide AutoModeOk, Undims, TurnsOn, Hindered, Holds, StagesDue, HasInhibit, OutOfPower, Wanted, IsNewMode;
    }
  }

  lemma KnownModeDue(c: Core, id: RequestId, name: string, m: ModeSelection, cmd: Command)
    requires InOrder(c) && Ours(cmd) && Chooses(c, Ipc(id, SetMode(name)))
    ensures IsNewMode(c.(mode := m), cmd) || cmd == Reply(id, AnswerTo(c, SetMode(name)))
            <==> DueHere(c, Ipc(id, SetMode(name)), c.state, m, cmd)
  {
    hide AutoModeOk, Undims, TurnsOn, Hindered, Holds, StagesDue, HasInhibit, OutOfPower, Wanted, AnswerTo, Chooses;
  }

  lemma ReactionDue(c: Core, id: RequestId, request: Request, cmd: Command)
    requires InOrder(c) && Ours(cmd) && (request == RequestUndim || request == RequestScreen(true))
    ensures IsReaction(c, cmd) || cmd == Reply(id, AnswerTo(c, request))
            <==> DueHere(c, Ipc(id, request), NextOnRequest(c, request), c.mode, cmd)
  {
    if cmd.Reply? {
      hide DueHere, IsFailing, IsLeaving;
      ActivityDue(c, Ipc(id, request), cmd);
      assert DueHere(c, Ipc(id, request), NextOnRequest(c, request), c.mode, cmd) <==> cmd == Reply(id, AnswerTo(c, request)) by {
        ReplyDue(c, id, request, cmd);
      }
    } else {
      hide DueHere, IsReaction, AnswerTo;
      ActivityDue(c, Ipc(id, request), cmd);
    }
  }

  lemma ReplyDue(c: Core, id: RequestId, request: Request, cmd: Command)
    requires cmd.Reply? && request != RequestReload
    ensures DueHere(c, Ipc(id, request), NextOnRequest(c, request), RequestedMode(c, request), cmd) <==> cmd == Reply(id, AnswerTo(c, request))
  {
    hide AnswerTo;
  }

  lemma CycleDue(c: Core, id: RequestId, cancel: bool, cmd: Command)
    requires InOrder(c) && Ours(cmd)
    ensures var request := RequestLongSleep(cancel);
            IsRequested(c, id, request, cmd) || cmd == Reply(id, AnswerTo(c, request))
            <==> DueHere(c, Ipc(id, request), NextOnRequest(c, request), c.mode, cmd)
  {
    hide Settled, AutoModeOk, Undims, TurnsOn, Hindered, Holds, StagesAre, AnswerTo, HasInhibit, OutOfPower;
    StaysSettled(c);
  }

  lemma SleepDue(c: Core, id: RequestId, force: bool, cmd: Command)
    requires InOrder(c) && Ours(cmd)
    ensures var request := RequestSleep(force);
            IsRequested(c, id, request, cmd) || cmd == Reply(id, AnswerTo(c, request))
            <==> DueHere(c, Ipc(id, request), NextOnRequest(c, request), c.mode, cmd)
  {
    hide Settled, AutoModeOk, Undims, TurnsOn, Hindered, Holds, StagesAre, AnswerTo, HasInhibit, OutOfPower;
  }

  lemma TableDue(c: Core, id: RequestId, request: Request, cmd: Command)
    requires InOrder(c) && Ours(cmd) && (request.AddInhibit? || request.Uninhibit?)
    ensures IsRequested(c, id, request, cmd) || cmd == Reply(id, AnswerTo(c, request))
            <==> DueHere(c, Ipc(id, request), NextOnRequest(c, request), c.mode, cmd)
  {
    hide Settled, AutoModeOk, Undims, TurnsOn, Hindered, Holds, StagesAre, AnswerTo, HasInhibit, OutOfPower;
  }

  lemma OtherDue(c: Core, id: RequestId, request: Request, cmd: Command)
    requires InOrder(c) && Ours(cmd)
    requires request in {Status, Modes, RequestDim, RequestScreen(false), RequestReload, Subscribe, Agent}
    ensures IsRequested(c, id, request, cmd) || (request != RequestReload && cmd == Reply(id, AnswerTo(c, request)))
            <==> DueHere(c, Ipc(id, request), NextOnRequest(c, request), c.mode, cmd)
  {
    hide Settled, AutoModeOk, Undims, TurnsOn, Hindered, Holds, StagesAre, AnswerTo, HasInhibit, OutOfPower;
  }

  lemma RequestSends(c: Core, id: RequestId, request: Request)
    requires InOrder(c)
    ensures SentAre(c, Ipc(id, request), OnIpc(c, id, request))
  {
    hide OnIpc, DueHere, IsRequested, Ours, NextOnRequest, AnswerTo, RequestedMode, InOrder;
    RequestGoes(c, id, request);
    assert RequestedAs(c, id, request) by {
      hide RequestedAs;
      match request
      case SetMode(name) => ModeRequested(c, id, name);
      case RequestUndim => ActivityRequested(c, id, request);
      case RequestScreen(on) => if on { ActivityRequested(c, id, request); } else { OtherRequested(c, id, request); }
      case RequestLongSleep(cancel) => CycleRequested(c, id, cancel);
      case RequestSleep(force) => SleepRequested(c, id, force);
      case AddInhibit(_, _, _) => TableRequested(c, id, request);
      case Uninhibit(_) => TableRequested(c, id, request);
      case _ => OtherRequested(c, id, request);
    }
    forall cmd | Ours(cmd)
      ensures IsRequested(c, id, request, cmd) || (request != RequestReload && cmd == Reply(id, AnswerTo(c, request)))
              <==> DueHere(c, Ipc(id, request), NextOnRequest(c, request), RequestedMode(c, request), cmd)
    {
      RequestedDue(c, id, request, cmd);
    }
  }

  // -- the rest

  predicate IsQuiet(e: Event) {
    e == GoingDown || e.IdleBackendChanged? || e.HibernateAvailable? || e.Inhibitors? || e == ReloadRequested
  }

  lemma QuietDue(c: Core, e: Event, cmd: Command)
    requires InOrder(c) && IsQuiet(e) && Ours(cmd)
    ensures DueHere(c, e, NextState(c, e), c.mode, cmd) <==> e == ReloadRequested && cmd == Reload(None)
  {
    hide Settled, AutoModeOk, Undims, TurnsOn, Hindered, Holds, StagesAre, AnswerTo, HasInhibit, OutOfPower;
  }

  lemma QuietSends(c: Core, e: Event)
    requires InOrder(c) && IsQuiet(e)
    ensures SentAre(c, e, Dispatch(c, e))
  {
    hide DueHere, Ours, InOrder;
    forall cmd | Ours(cmd)
      ensures DueHere(c, e, NextState(c, e), c.mode, cmd) <==> e == ReloadRequested && cmd == Reload(None)
    {
      QuietDue(c, e, cmd);
    }
  }

  lemma ShutdownSends(c: Core)
    requires InOrder(c)
    ensures SentAre(c, ShutdownRequested, OnShutdown(c))
  {
    hide Settled, AutoModeOk, Undims, TurnsOn, Hindered, Holds, StagesAre, AnswerTo, HasInhibit, OutOfPower;
  }

  lemma ReactionAlone(c: Core)
    requires InOrder(c)
    ensures SentAre(c, Activity, OnActivity(c))
  {
    hide OnActivity, DueHere, Ours, InOrder;
    ActivitySends(c, Activity);
    forall cmd: Command | cmd.Reply? ensures !DueHere(c, Activity, OnActivity(c).core.state, OnActivity(c).core.mode, cmd) {
      NoReplyDue(c, OnActivity(c).core, cmd);
    }
  }

  lemma NoReplyDue(c: Core, d: Core, cmd: Command)
    requires cmd.Reply?
    ensures !DueHere(c, Activity, d.state, d.mode, cmd)
  {
  }

  lemma DispatchSends(c: Core, e: Event)
    requires InOrder(c)
    ensures SentAre(c, e, Dispatch(c, e))
  {
    hide SentAre, InOrder, OnIdle, OnActivity, OnAcChanged, OnTimer, OnIpc, OnResumed, OnSleepBlocked, OnSleepFailed, OnWakeScheduled,
         OnBattery, OnShutdown;
    match e
    case Idle(stage) => IdleSends(c, stage);
    case Activity => ReactionAlone(c);
    case AcChanged(ac) => AcSends(c, ac);
    case Battery(percent) => BatterySends(c, percent);
    case Resumed => ResumedSends(c, false);
    case ResumedByUser => ResumedSends(c, true);
    case TimerFired(id) => TimerSends(c, id);
    case Ipc(id, request) => RequestSends(c, id, request);
    case SleepBlocked(_) => AnswerSends(c, e);
    case SleepFailed => AnswerSends(c, e);
    case WakeScheduled(_) => AnswerSends(c, e);
    case ShutdownRequested => ShutdownSends(c);
    case _ => QuietSends(c, e);
  }
}
