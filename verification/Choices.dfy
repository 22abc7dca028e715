/** What clients choose: the mode, and the inhibitors they hold. Both change by
    the events that are about them and by no other. */
module Choices {
  import opened Types
  import opened Transition
  import opened Invariants
  import opened Discipline

  // --------------------------------------------------------- the manual mode

  /** The mode in effect was chosen by name and the config does not have it. */
  predicate Dangling(c: Core) {
    c.mode.Manual? && c.mode.name !in c.config.modes
  }

  /** A client chooses a mode there is, or none. */
  predicate Chooses(c: Core, e: Event) {
    e.Ipc? && e.request.SetMode? && (e.request.name == "auto" || e.request.name in c.config.modes)
  }

  ghost predicate KeepsChoice(c: Core, d: Core) {
    && d.config == c.config
    && (if c.mode.Manual? then d.mode == c.mode else d.mode.Auto?)
  }

  lemma LeavingKeepsChoice(c: Core)
    ensures KeepsChoice(c, LeaveCycle(c).core) && KeepsChoice(c, PowerIsBack(c).core) && KeepsChoice(c, CheckPower(c).core)
    ensures KeepsChoice(c, ReapplyAutoMode(c).core)
  {
    hide ModeCommands, AutoModeName, Critically;
  }

  lemma FailureKeepsChoice(c: Core)
    ensures KeepsChoice(c, CycleFailure(c).core)
  {
    hide LeaveCycle;
    LeavingKeepsChoice(c.(sleepFailures := c.sleepFailures + 1));
  }

  lemma ActivityKeepsChoice(c: Core)
    ensures KeepsChoice(c, OnActivity(c).core)
  {
    hide LeaveCycle, CycleFailure;
    LeavingKeepsChoice(c.(pendingSleep := false, interrupted := true));
    FailureKeepsChoice(c.(pendingSleep := false));
  }

  lemma TrySleepKeepsChoice(c: Core, force: bool, armRetry: bool)
    ensures KeepsChoice(c, TrySleep(c, force, armRetry).core)
  {
    hide Blocked;
  }

  lemma TimerKeepsChoice(c: Core, id: TimerId)
    ensures KeepsChoice(c, OnTimer(c, id).core)
  {
    hide TrySleep, PowerIsBack, CheckPower, RemoveInhibit, BatteryCritical, KeepsChoice, Arm;
    SameChoice(c, c);
    match id
    case SleepRetry =>
      TrySleepKeepsChoice(c.(pendingSleep := false), false, true);
      SameChoice(c, c.(pendingSleep := false));
    case AwakeWindow =>
      LeavingKeepsChoice(c);
      ArmKeepsChoice(c, false);
    case GraceTimer => ArmKeepsChoice(c, true);
    case InhibitExpiry(i) => SameChoice(c, c.(inhibits := RemoveInhibit(c.inhibits, i)));
  }

  lemma ArmKeepsChoice(c: Core, first: bool)
    ensures KeepsChoice(c, Arm(c, first).core)
  {
  }

  lemma SameChoice(c: Core, d: Core)
    requires c.config == d.config && c.mode == d.mode
    ensures KeepsChoice(c, d)
    ensures forall x {:trigger KeepsChoice(d, x)} :: KeepsChoice(d, x) ==> KeepsChoice(c, x)
  {
  }

  lemma GraceKeepsChoice(c: Core, delay: Duration)
    ensures EnterGrace(c, delay).core.config == c.config && EnterGrace(c, delay).core.mode == c.mode
  {
  }

  lemma PowerKeepsChoice(c: Core, e: Event)
    requires e.AcChanged? || e.Battery?
    ensures KeepsChoice(c, Dispatch(c, e).core)
  {
    hide OnAcChanged, ReapplyAutoMode, ComputeLow;
    if e.AcChanged? {
      AcKeepsChoice(c, e.ac);
    } else {
      LeavingKeepsChoice(OnBatteryReading(c, e.percent));
    }
  }

  lemma AcKeepsChoice(c: Core, ac: bool)
    ensures KeepsChoice(c, OnAcChanged(c, ac).core)
  {
    hide PowerIsBack, ReapplyAutoMode, EnterGrace, KeepsChoice;
    var c' := c.(ac := ac);
    SameChoice(c, c);
    SameChoice(c, c');
    SameChoice(c, c'.(state := Active));
    LeavingKeepsChoice(c');
    LeavingKeepsChoice(c'.(state := Active));
    GraceSameChoice(c, ReapplyAutoMode(c').core, c.config.server.gracePeriod);
  }

  lemma GraceSameChoice(c: Core, d: Core, delay: Duration)
    ensures KeepsChoice(c, d) ==> KeepsChoice(c, EnterGrace(d, delay).core)
  {
    hide EnterGrace;
    GraceKeepsChoice(d, delay);
  }

  lemma AnswerKeepsChoice(c: Core, e: Event)
    requires e.SleepBlocked? || e.SleepFailed? || e.WakeScheduled?
    ensures KeepsChoice(c, Dispatch(c, e).core)
  {
    hide CycleFailure, OnActivity, PowerIsBack, Blocked, KeepsChoice, ArmSleepRetry;
    var d := if e.SleepBlocked? then c.(external := e.list) else c;
    var r := d.(state := c.suspendFrom);
    SameChoice(c, d);
    SameChoice(c, r);
    FailureKeepsChoice(d);
    ActivityKeepsChoice(c);
    LeavingKeepsChoice(c);
    RetryKeepsChoice(r);
  }

  lemma RetryKeepsChoice(c: Core)
    ensures KeepsChoice(c, ArmSleepRetry(c).core)
  {
  }

  lemma ResumedKeepsChoice(c: Core, byUser: bool)
    ensures KeepsChoice(c, OnResumed(c, byUser).core)
  {
    hide CheckPower, LeaveCycle, CurrentStages, KeepsChoice;
    var d := c.(pendingSleep := false);
    SameChoice(c, d);
    SameChoice(c, d.(interrupted := true));
    SameChoice(c, d.(state := Active));
    LeavingKeepsChoice(d);
    LeavingKeepsChoice(d.(interrupted := true));
  }

  lemma RequestKeepsChoice(c: Core, id: RequestId, request: Request)
    requires !Chooses(c, Ipc(id, request))
    ensures KeepsChoice(c, OnIpc(c, id, request).core)
  {
    hide OnActivity, OnLongSleep, OnSetMode, OnInhibit, OnUninhibit, TrySleep, Blocked;
    match request
    case RequestUndim => ActivityKeepsChoice(c);
    case RequestScreen(_) => ActivityKeepsChoice(c);
    case RequestSleep(force) => TrySleepKeepsChoice(c, force, false);
    case RequestLongSleep(cancel) => LongSleepKeepsChoice(c, id, cancel);
    case SetMode(name) => TableKeepsChoice(c, id, request);
    case AddInhibit(_, _, _) => TableKeepsChoice(c, id, request);
    case Uninhibit(_) => TableKeepsChoice(c, id, request);
    case _ =>
  }

  lemma LongSleepKeepsChoice(c: Core, id: RequestId, cancel: bool)
    ensures KeepsChoice(c, OnLongSleep(c, id, cancel).core)
  {
    hide LeaveCycle, EnterGrace;
    GraceKeepsChoice(c, 0);
    LeavingKeepsChoice(c.(interrupted := false));
  }

  lemma TableKeepsChoice(c: Core, id: RequestId, request: Request)
    requires !Chooses(c, Ipc(id, request)) && (request.SetMode? || request.AddInhibit? || request.Uninhibit?)
    ensures KeepsChoice(c, OnIpc(c, id, request).core)
  {
    hide HasInhibit, RemoveInhibit, AutoModeName, ModeChanged;
  }

  /** The user's choice of mode is changed by the user only. */
  lemma ChoiceKept(c: Core, e: Event)
    requires !Chooses(c, e)
    ensures KeepsChoice(c, Handle(c, e).core)
  {
    hide OnActivity, OnAcChanged, OnTimer, OnIpc, OnResumed, OnSleepBlocked, OnSleepFailed, OnWakeScheduled, TrySleep,
         IdleInhibited, OnBattery, Announce, KeepsChoice;
    match e
    case Idle(stage) => IdleKeepsChoice(c, stage);
    case Activity => ActivityKeepsChoice(c);
    case AcChanged(_) => PowerKeepsChoice(c, e);
    case Battery(_) => PowerKeepsChoice(c, e);
    case TimerFired(id) => TimerKeepsChoice(c, id);
    case Ipc(id, request) => RequestKeepsChoice(c, id, request);
    case SleepBlocked(_) => AnswerKeepsChoice(c, e);
    case SleepFailed => AnswerKeepsChoice(c, e);
    case WakeScheduled(_) => AnswerKeepsChoice(c, e);
    case Resumed => ResumedKeepsChoice(c, false);
    case ResumedByUser => ResumedKeepsChoice(c, true);
    case _ => QuietKeepsChoice(c, e);
  }

  lemma IdleKeepsChoice(c: Core, stage: Stage)
    ensures KeepsChoice(c, OnIdle(c, stage).core)
  {
    hide TrySleep, IdleInhibited;
    TrySleepKeepsChoice(c, false, true);
  }

  lemma QuietKeepsChoice(c: Core, e: Event)
    requires e == GoingDown || e.IdleBackendChanged? || e.Inhibitors? || e == ReloadRequested || e == ShutdownRequested || e.HibernateAvailable?
    ensures KeepsChoice(c, Dispatch(c, e).core)
  {
  }

  lemma ChoosingIsSound(c: Core, e: Event)
    requires Chooses(c, e)
    ensures var d := Handle(c, e).core; d.config == c.config && !Dangling(d)
  {
    hide ModeChanged, AutoModeName, Announce, OnIpc;
    ModeChosen(c, e.id, e.request.name);
  }

  lemma ModeChosen(c: Core, id: RequestId, name: string)
    requires name == "auto" || name in c.config.modes
    ensures var d := OnIpc(c, id, SetMode(name)).core; d.config == c.config && !Dangling(d)
  {
    hide ModeChanged, AutoModeName;
  }

  // -------------------------------------------------------- the inhibitors

  /** The events that change the table, and what they make of it. */
  function TableAfter(c: Core, e: Event): seq<Inhibit> {
    match e
    case Ipc(_, request) =>
      if request.AddInhibit? && request.ttl > 0 then
        c.inhibits + [Inhibit(c.nextInhibitId, request.what, request.why, Min(request.ttl, MAX_INHIBIT_TTL))]
      else if request.Uninhibit? then RemoveInhibit(c.inhibits, request.inhibit)
      else c.inhibits
    case TimerFired(id) => if id.InhibitExpiry? then RemoveInhibit(c.inhibits, id.id) else c.inhibits
    case _ => c.inhibits
  }

  predicate IssuesId(e: Event) {
    e.Ipc? && e.request.AddInhibit? && e.request.ttl > 0
  }

  ghost predicate SameTable(c: Core, d: Core) {
    d.inhibits == c.inhibits && d.nextInhibitId == c.nextInhibitId
  }

  lemma LeavingSameTable(c: Core)
    ensures SameTable(c, LeaveCycle(c).core) && SameTable(c, PowerIsBack(c).core) && SameTable(c, CheckPower(c).core)
    ensures SameTable(c, ReapplyAutoMode(c).core)
  {
    hide ModeCommands, AutoModeName, Critically;
  }

  lemma FailureSameTable(c: Core)
    ensures SameTable(c, CycleFailure(c).core)
  {
    hide LeaveCycle;
    LeavingSameTable(c.(sleepFailures := c.sleepFailures + 1));
  }

  lemma ActivitySameTable(c: Core)
    ensures SameTable(c, OnActivity(c).core)
  {
    hide LeaveCycle, CycleFailure;
    LeavingSameTable(c.(pendingSleep := false, interrupted := true));
    FailureSameTable(c.(pendingSleep := false));
  }

  lemma SmallSameTable(c: Core, force: bool, armRetry: bool, delay: Duration, first: bool)
    ensures SameTable(c, TrySleep(c, force, armRetry).core) && SameTable(c, EnterGrace(c, delay).core)
    ensures SameTable(c, Arm(c, first).core) && SameTable(c, ArmSleepRetry(c).core)
  {
    hide Blocked;
  }

  lemma TimerTable(c: Core, id: TimerId)
    ensures OnTimer(c, id).core.inhibits == TableAfter(c, TimerFired(id)) && OnTimer(c, id).core.nextInhibitId == c.nextInhibitId
  {
    hide TrySleep, PowerIsBack, CheckPower, RemoveInhibit, BatteryCritical, Arm;
    SmallSameTable(c.(pendingSleep := false), false, true, 0, true);
    SmallSameTable(c, false, true, 0, id == GraceTimer);
    LeavingSameTable(c);
  }

  lemma AcSameTable(c: Core, ac: bool)
    ensures SameTable(c, OnAcChanged(c, ac).core)
  {
    hide PowerIsBack, ReapplyAutoMode, EnterGrace;
    var c' := c.(ac := ac);
    LeavingSameTable(c');
    LeavingSameTable(c'.(state := Active));
    SmallSameTable(ReapplyAutoMode(c').core, false, false, c.config.server.gracePeriod, false);
  }

  lemma RefusalSameTable(c: Core, list: seq<Inhibitor>)
    ensures SameTable(c, OnSleepBlocked(c, list).core)
  {
    hide CycleFailure, ArmSleepRetry;
    var d := c.(external := list);
    FailureSameTable(d);
    SmallSameTable(d.(state := c.suspendFrom), false, false, 0, false);
  }

  lemma FailedSameTable(c: Core)
    ensures SameTable(c, OnSleepFailed(c).core)
  {
    hide CycleFailure, OnActivity;
    FailureSameTable(c);
    ActivitySameTable(c);
  }

  lemma WakeSameTable(c: Core, armed: bool)
    ensures SameTable(c, OnWakeScheduled(c, armed).core)
  {
    hide CycleFailure, PowerIsBack, Blocked;
    FailureSameTable(c);
    LeavingSameTable(c);
  }

  lemma ResumedSameTable(c: Core, byUser: bool)
    ensures SameTable(c, OnResumed(c, byUser).core)
  {
    hide CheckPower, LeaveCycle, CurrentStages;
    LeavingSameTable(c.(pendingSleep := false));
    LeavingSameTable(c.(pendingSleep := false, interrupted := true));
  }

  lemma RequestTable(c: Core, id: RequestId, request: Request)
    ensures var d, e := OnIpc(c, id, request).core, Ipc(id, request);
            d.inhibits == TableAfter(c, e) && d.nextInhibitId == c.nextInhibitId + (if IssuesId(e) then 1 else 0)
  {
    hide OnActivity, OnLongSleep, OnSetMode, OnInhibit, OnUninhibit, TrySleep, Blocked, RemoveInhibit;
    match request
    case RequestUndim => ActivitySameTable(c);
    case RequestScreen(_) => ActivitySameTable(c);
    case RequestSleep(force) => SmallSameTable(c, force, false, 0, false);
    case RequestLongSleep(cancel) => LongSleepSameTable(c, id, cancel);
    case SetMode(name) => ModeSameTable(c, id, name);
    case AddInhibit(what, why, ttl) => AddedToTable(c, id, what, why, ttl);
    case Uninhibit(inhibit) => RemovedFromTable(c, id, inhibit);
    case _ =>
  }

  lemma LongSleepSameTable(c: Core, id: RequestId, cancel: bool)
    ensures SameTable(c, OnLongSleep(c, id, cancel).core)
  {
    hide LeaveCycle, EnterGrace;
    LeavingSameTable(c.(interrupted := false));
    SmallSameTable(c, false, false, 0, false);
  }

  lemma ModeSameTable(c: Core, id: RequestId, name: string)
    ensures SameTable(c, OnSetMode(c, id, name).core)
  {
    hide ModeChanged, AutoModeName;
  }

  lemma AddedToTable(c: Core, id: RequestId, what: InhibitWhat, why: string, ttl: Duration)
    ensures var d, e := OnInhibit(c, id, what, why, ttl).core, Ipc(id, AddInhibit(what, why, ttl));
            d.inhibits == TableAfter(c, e) && d.nextInhibitId == c.nextInhibitId + (if IssuesId(e) then 1 else 0)
  {
  }

  lemma RemovedFromTable(c: Core, id: RequestId, inhibit: nat)
    ensures var d := OnUninhibit(c, id, inhibit).core;
            d.inhibits == RemoveInhibit(c.inhibits, inhibit) && d.nextInhibitId == c.nextInhibitId
  {
    if !HasInhibit(c.inhibits, inhibit) {
      NothingToRemove(c.inhibits, inhibit);
    }
  }

  lemma {:induction false} NothingToRemove(inhibits: seq<Inhibit>, id: nat)
    requires !HasInhibit(inhibits, id)
    ensures RemoveInhibit(inhibits, id) == inhibits
  {
    if inhibits != [] {
      assert inhibits[0] in inhibits;
      assert forall i :: i in inhibits[1..] ==> i in inhibits;
      NothingToRemove(inhibits[1..], id);
    }
  }

  lemma PowerSameTable(c: Core, percent: nat)
    ensures SameTable(c, OnBattery(c, percent).core)
  {
    hide ReapplyAutoMode, ComputeLow;
    LeavingSameTable(OnBatteryReading(c, percent));
  }

  lemma IdleSameTable(c: Core, stage: Stage)
    ensures SameTable(c, OnIdle(c, stage).core)
  {
    hide TrySleep, IdleInhibited;
    SmallSameTable(c, false, true, 0, false);
  }

  lemma FlagsSameTable(c: Core, e: Event)
    requires e == GoingDown || e.IdleBackendChanged? || e.Inhibitors? || e == ReloadRequested || e == ShutdownRequested || e.HibernateAvailable?
    ensures SameTable(c, Dispatch(c, e).core)
  {
  }

  lemma OthersSameTable(c: Core, e: Event)
    requires !e.Ipc? && !e.TimerFired?
    ensures SameTable(c, Handle(c, e).core)
  {
    hide OnActivity, OnAcChanged, OnResumed, OnSleepBlocked, OnSleepFailed, OnWakeScheduled, OnIdle, OnBattery, Announce, SameTable;
    match e
    case Idle(stage) => IdleSameTable(c, stage);
    case Activity => ActivitySameTable(c);
    case AcChanged(ac) => AcSameTable(c, ac);
    case Battery(percent) => PowerSameTable(c, percent);
    case Resumed => ResumedSameTable(c, false);
    case ResumedByUser => ResumedSameTable(c, true);
    case SleepBlocked(list) => RefusalSameTable(c, list);
    case SleepFailed => FailedSameTable(c);
    case WakeScheduled(armed) => WakeSameTable(c, armed);
    case _ => FlagsSameTable(c, e);
  }

  /** The inhibitor table changes by a grant, a removal and an expiry only. */
  lemma TableExactly(c: Core, e: Event)
    ensures var d := Handle(c, e).core;
            d.inhibits == TableAfter(c, e) && d.nextInhibitId == c.nextInhibitId + (if IssuesId(e) then 1 else 0)
  {
    hide OnTimer, OnIpc, Announce, RemoveInhibit;
    match e
    case TimerFired(timer) => TimerTable(c, timer);
    case Ipc(request, what) => RequestTable(c, request, what);
    case _ =>
      hide Handle;
      OthersSameTable(c, e);
  }
}
