/** What a drained daemon can be found in that its documents rule out, or say
    only loosely, and the moves that lead there and out of there. For each there
    is one theorem about one move: afterwards it holds exactly if the move began
    it, or it held and the move did not end it. */
module Histories {
  import opened Types
  import opened Transition
  import opened Effects
  import opened Invariants
  import opened Discipline
  import A = Agent
  import opened Choices
  import opened Outcomes
  import opened Wake
  import opened World
  import opened Safety
  import opened Turns

  // --------------------------------------------- suspending, and nothing else

  /** `Suspending` without a request open, on its way, or to be tried again. */
  ghost predicate Stuck(w: World) {
    && w.core.state == Suspending && !w.core.pendingSleep && w.inflight == 0
    && (forall p :: p in Virtual(w).pivots ==> !p.GoToSleep?)
  }

  /** With retries off: the last open request is refused and `Suspending` is
      what the refused one goes back to, or a retry from before they were
      turned off comes due and is blocked. */
  predicate StrandsSuspend(w: World, m: Move) {
    && Legal(w, m) && w.core.state == Suspending && w.core.config.sleep.retry == 0 && m.Take?
    && ((m.input.Refuses? && m.input.event.SleepBlocked? && w.inflight == 1 && w.core.suspendFrom == Suspending
         && !w.core.pendingSleep)
        || (m.input == TimerDue(SleepRetry) && w.inflight == 0 && w.core.pendingSleep && Hindered(w.core)))
  }

  /** The user, a wake, a suspend from outside, a shutdown, or a new request. */
  predicate FreesSuspend(w: World, m: Move) {
    Legal(w, m) && Fed(w, m).Some? && (Ends(Fed(w, m).value) || Asks(w.core, Fed(w, m).value))
  }

  lemma StuckTurn(w: World, m: Move)
    requires Inv(w) && Legal(w, m)
    ensures Stuck(Perform(w, m)) <==> StrandsSuspend(w, m) || (Stuck(w) && !FreesSuspend(w, m))
  {
    hide Inv, Legal, Perform, Virtual, Blocked, IdleInhibited;
    if Fed(w, m).Some? {
      StuckFed(w, m);
    } else if Loaded(w, m).Some? {
      StuckLoaded(w, m);
    } else {
      StuckPlain(w, m);
    }
  }

  lemma NotDown(w: World, m: Move)
    requires Legal(w, m)
    ensures !w.down && (m.Drain? ==> w.queue != []) && (m.Take? ==> Possible(w, m.input))
  {
  }

  lemma StuckPlain(w: World, m: Move)
    requires Inv(w) && Legal(w, m) && Fed(w, m).None? && Loaded(w, m).None?
    ensures Stuck(Perform(w, m)) <==> StrandsSuspend(w, m) || (Stuck(w) && !FreesSuspend(w, m))
  {
    hide Inv, Perform, Virtual, Blocked;
    PlainTurn(w, m);
    if m.Drain? && IsPivot(w.queue[0]) {
      hide IsPivot;
      HeadPivot(w);
      assert Virtual(w).pivots == [w.queue[0]];
    }
  }

  lemma StuckLoaded(w: World, m: Move)
    requires Inv(w) && Legal(w, m) && Loaded(w, m).Some?
    ensures Stuck(Perform(w, m)) <==> StrandsSuspend(w, m) || (Stuck(w) && !FreesSuspend(w, m))
  {
    hide Inv, Perform, Virtual, Blocked, SetConfig, After, Load;
    NotDown(w, m);
    LoadedTurn(w, m);
    SetConfigFrame(w.core, Loaded(w, m).value);
    HeadPivot(w);
    ConfigPursuesNothing(w.core, Loaded(w, m).value);
    PivotsCollected(Virtual(w).(pivots := []), Sent(w, m));
    assert Virtual(w).pivots == [w.queue[0]];
  }

  lemma ConfigPursuesNothing(c: Core, config: Config)
    ensures forall cmd :: cmd in SetConfig(c, config).cmds ==> cmd.ApplyMode? || cmd.ReplaceIdleStages?
  {
    hide WantedStages;
  }

  lemma StuckFed(w: World, m: Move)
    requires Inv(w) && Legal(w, m) && Fed(w, m).Some?
    ensures Stuck(Perform(w, m)) <==> StrandsSuspend(w, m) || (Stuck(w) && !FreesSuspend(w, m))
  {
    hide Inv, Legal, Perform, Virtual, Blocked, IdleInhibited, After, Handle, Found, IsPivot;
    NotDown(w, m);
    FedTurn(w, m);
    FoundEffects(w, m);
    NoRetry(w);
    var e := Fed(w, m).value;
    SuspendingExactly(w.core, e);
    PivotsCollected(Virtual(Found(w, m)), Sent(w, m));
    FoundInflight(w, m);
    if m.Drain? {
      StuckDrained(w, m);
    } else if w.core.state == Suspending || Handle(w.core, e).core.state == Suspending {
      SleepsExactly(w.core, e);
      SleepIsPivot();
      if w.core.state == Suspending && Handle(w.core, e).core.state == Suspending && !Asks(w.core, e) {
        SuspendingRetry(w.core, e);
      }
      TakenBare(w, m);
    }
  }

  lemma SleepIsPivot()
    ensures forall c: Command :: c.GoToSleep? ==> IsPivot(c)
  {
  }

  lemma FoundInflight(w: World, m: Move)
    requires Legal(w, m)
    ensures Found(w, m).inflight == w.inflight - (if m.Take? && (m.input == GoesDown(true) || m.input.Refuses?) then 1 else 0)
  {
    hide ArmRtc, WakeEvent;
    if m.Take? && m.input.WakesUp? {
      WakeInflight(w, m.input.now);
    }
  }

  lemma WakeInflight(w: World, now: Instant)
    ensures WakeEvent(w, now).0.inflight == w.inflight
  {
  }

  /** In mid-drain a fed event finds a request on its way, or the cycle. */
  lemma StuckDrained(w: World, m: Move)
    requires Inv(w) && Legal(w, m) && Fed(w, m).Some? && m.Drain?
    ensures !Stuck(w) && Perform(w, m).core.state != Suspending
  {
    hide Inv, Perform, Virtual, Blocked, After, Handle, IdleInhibited, BatteryCritical;
    NotDown(w, m);
    FedTurn(w, m);
    NoRetry(w);
    FollowsTheTable(w.core, Fed(w, m).value);
    HeadPivot(w);
    assert Virtual(w).pivots == [w.queue[0]];
  }

  lemma TakenBare(w: World, m: Move)
    requires Inv(w) && Legal(w, m) && m.Take? && Fed(w, m).Some?
    ensures Virtual(w).pivots == []
    ensures Fed(w, m).value.SleepBlocked? ==> m.input.Refuses? && w.inflight > 0
    ensures forall id :: Fed(w, m).value == TimerFired(id) ==> m.input == TimerDue(id)
    ensures m.input.Refuses? ==> Fed(w, m).value == m.input.event
    ensures m.input == GoesDown(true) ==> Fed(w, m).value == GoingDown
  {
    hide Good, PanelOk, RestOk, CountOk, ClassifyWake;
    TakeFound(w, m.input);
    if m.input.PowerMoves? {
      PowerEvents(w);
    }
  }

  // ------------------------------------------- idle stages on past Grace

  ghost predicate StagesOn(w: World) {
    w.core.state.PastGrace() && Virtual(w).stages != NO_STAGES
  }

  /** A suspend or a resume in Grace, in a mode that has stages. */
  predicate SkipsGrace(w: World, m: Move) {
    && Legal(w, m) && w.core.state == LongSleep(Grace) && CurrentStages(w.core) != NO_STAGES && m.Take?
    && (m.input.GoesDown? || (m.input.WakesUp? && !w.core.ac))
  }

  /** A reload is accepted, a client chooses a mode, power asks for another one,
      or this stay past Grace is over. */
  predicate ResetsStages(w: World, m: Move) {
    Legal(w, m)
    && (Loaded(w, m).Some?
        || (Fed(w, m).Some?
            && (var e := Fed(w, m).value; Chooses(w.core, e) || FlipsMode(w.core, e) || !NextState(w.core, e).PastGrace())))
  }

  lemma StagesTurn(w: World, m: Move)
    requires Inv(w) && Legal(w, m)
    ensures StagesOn(Perform(w, m)) <==> SkipsGrace(w, m) || (StagesOn(w) && !ResetsStages(w, m))
  {
    hide Inv, Legal, Perform, Virtual, CurrentStages, SendsStages, Sent, NextState, Chooses, FlipsMode;
    if Fed(w, m).Some? {
      StagesFed(w, m);
    } else if Loaded(w, m).Some? {
      StagesLoaded(w, m);
    } else {
      NotDown(w, m);
      PlainTurn(w, m);
      NothingSent(w, m);
      if SkipsGrace(w, m) {
        NotFedInGrace(w, m);
      }
    }
  }

  lemma NothingSent(w: World, m: Move)
    requires Sent(w, m) == []
    ensures !SendsStages(Sent(w, m))
  {
  }

  lemma NotFedInGrace(w: World, m: Move)
    requires SkipsGrace(w, m)
    ensures Fed(w, m) == Some(if m.input.GoesDown? then GoingDown else Resumed)
  {
    hide ClassifyWake;
  }

  lemma StagesLoaded(w: World, m: Move)
    requires Inv(w) && Legal(w, m) && Loaded(w, m).Some?
    ensures StagesOn(Perform(w, m)) <==> SkipsGrace(w, m) || (StagesOn(w) && !ResetsStages(w, m))
  {
    hide Inv, Perform, Virtual, CurrentStages, After, SetConfig, Load;
    LoadedTurn(w, m);
    SetConfigFrame(w.core, Loaded(w, m).value);
    if w.core.state.PastGrace() {
      ReloadSendsOff(w.core, Loaded(w, m).value, w.queue[0].replyTo);
      StagesAfter(Virtual(w).(pivots := []), Sent(w, m), NO_STAGES);
    }
  }

  lemma ReloadSendsOff(c: Core, config: Config, replyTo: Option<RequestId>)
    requires c.state.PastGrace()
    ensures var q := ReloadSends(c, config, replyTo);
            SendsStages(q) && (forall s :: ReplaceIdleStages(s) in q ==> s == NO_STAGES)
  {
    var q := ReloadSends(c, config, replyTo);
    assert ReplaceIdleStages(NO_STAGES) in SetConfig(c, config).cmds;
    assert ReplaceIdleStages(NO_STAGES) in q;
  }

  lemma StagesFed(w: World, m: Move)
    requires Inv(w) && Legal(w, m) && Fed(w, m).Some?
    ensures StagesOn(Perform(w, m)) <==> SkipsGrace(w, m) || (StagesOn(w) && !ResetsStages(w, m))
  {
    hide Inv, Perform, Virtual, CurrentStages, After, Handle, Found, SendsStages, NoRetryInCycle, NextState, Chooses, FlipsMode;
    var e := Fed(w, m).value;
    NotDown(w, m);
    FedTurn(w, m);
    FoundEffects(w, m);
    NoRetry(w);
    FollowsTheTable(w.core, e);
    OneOrTheOther(w, m);
    if Perform(w, m).core.state.PastGrace() {
      OffPastGrace(w.core, e, Virtual(Found(w, m)));
      if !w.core.state.PastGrace() {
        PastGraceExactly(w.core, e);
        GraceEndsSilently(w.core, e);
        GraceSkipped(w, m);
      } else {
        StayingSendsExactly(w.core, e);
      }
    } else {
      if SkipsGrace(w, m) {
        NotFedInGrace(w, m);
        PastGraceExactly(w.core, e);
      }
    }
  }

  /** In Grace the stages are the mode's, and these are the events that end it. */
  lemma GraceSkipped(w: World, m: Move)
    requires Inv(w) && Legal(w, m) && Fed(w, m).Some? && w.core.state == LongSleep(Grace)
    requires var e := Fed(w, m).value; e == TimerFired(GraceTimer) || e == GoingDown || (e == Resumed && !w.core.ac)
    ensures Virtual(w).stages == CurrentStages(w.core)
    ensures SkipsGrace(w, m) <==> Fed(w, m).value != TimerFired(GraceTimer) && CurrentStages(w.core) != NO_STAGES
  {
    hide CurrentStages, Perform, PanelOk, RestOk, CountOk, After, TableOk, ExpiriesOk, TimersOk, AutoModeOk, LowOk, Handle, ClassifyWake, ArmRtc;
    if m.Drain? {
      NotDown(w, m);
      HeadPivot(w);
      assert false;
    } else {
      TakeFound(w, m.input);
      if m.input.PowerMoves? {
        PowerEvents(w);
      }
    }
  }

  // --------------------------------------------- timers that outlive the cycle

  /** Inside the cycle with a wake to be scheduled or a suspend on its way: the
      only way for the rest of a drain to leave it. */
  ghost predicate Pursuing(w: World) {
    w.core.state.LongSleep? && Pursues(Virtual(w).pivots)
  }

  /** While the drain of an event taken in the cycle goes on. `left` is whether
      the timer runs once the event has been handled. */
  ghost predicate OnItsWay(w: World, id: TimerId, left: bool) {
    && (!w.core.state.LongSleep? || Pursuing(w) ==> (id in Virtual(w).timers <==> left))
    && (Pursuing(w) ==> w.core.state == LongSleep(Armed))
  }

  lemma {:induction false} PivotsPursue(v: Effects, q: seq<Command>)
    requires v.pivots == []
    ensures Pursues(After(v, q).pivots) <==> Pursues(q)
  {
    PivotsCollected(v, q);
  }

  /** The event itself. */
  lemma EventOnItsWay(w: World, m: Move, id: TimerId)
    requires Inv(w) && Legal(w, m) && m.Take? && Fed(w, m).Some? && w.core.state.LongSleep? && CycleTimer(id)
    ensures OnItsWay(Perform(w, m), id,
                     id in w.fx.timers && Fed(w, m).value != TimerFired(id) && !TakesBack(w.core, Fed(w, m).value, id))
  {
    hide Inv, Perform, Virtual, After, Handle, Found, TakesBack, Pursues, NoRetryInCycle, Starts;
    var e := Fed(w, m).value;
    NotDown(w, m);
    FedTurn(w, m);
    FoundEffects(w, m);
    TakenFx(w, m);
    NoRetry(w);
    TakesBackExactly(w.core, e, id);
    PivotsPursue(Virtual(Found(w, m)), Sent(w, m));
    if !Perform(w, m).core.state.LongSleep? {
      LeavingStartsNone(w.core, e, id);
      TimerAfter(Virtual(Found(w, m)), Sent(w, m), id);
    } else if Pursuing(Perform(w, m)) {
      PursuesQuietly(w.core, e, id);
      TimerAfter(Virtual(Found(w, m)), Sent(w, m), id);
    }
  }

  lemma TakenFx(w: World, m: Move)
    requires Inv(w) && Legal(w, m) && m.Take? && Fed(w, m).Some?
    ensures Virtual(w) == w.fx
  {
    hide Inv;
    NotDown(w, m);
    TakeFound(w, m.input);
  }

  /** The moves after it, until the queue is empty. */
  lemma DrainOnItsWay(w: World, m: Move, id: TimerId, left: bool)
    requires Inv(w) && Legal(w, m) && w.queue != [] && CycleTimer(id) && OnItsWay(w, id, left)
    ensures OnItsWay(Perform(w, m), id, left)
  {
    hide Inv, Perform, Virtual, Handle, Found, Pursues, Legal;
    NotDown(w, m);
    if Fed(w, m).Some? {
      AnswerOnItsWay(w, m, id, left);
    } else if Loaded(w, m).Some? {
      ReloadOnItsWay(w, m, id, left);
    } else {
      PlainTurn(w, m);
      NothingPursued();
    }
  }

  lemma NothingPursued()
    ensures !Pursues([])
  {
  }

  lemma ReloadOnItsWay(w: World, m: Move, id: TimerId, left: bool)
    requires Inv(w) && Legal(w, m) && Loaded(w, m).Some? && OnItsWay(w, id, left)
    ensures OnItsWay(Perform(w, m), id, left)
  {
    hide Inv, Perform, Virtual, SetConfig, After, Load, Pursues;
    NotDown(w, m);
    LoadedTurn(w, m);
    SetConfigFrame(w.core, Loaded(w, m).value);
    ConfigPursuesNothing(w.core, Loaded(w, m).value);
    NoTimersInReload(w, m, id);
    TimerAfter(Virtual(w).(pivots := []), Sent(w, m), id);
    PivotsPursue(Virtual(w).(pivots := []), Sent(w, m));
  }

  lemma NoTimersInReload(w: World, m: Move, id: TimerId)
    requires Loaded(w, m).Some? && Fed(w, m).None?
    requires forall cmd :: cmd in SetConfig(w.core, Loaded(w, m).value).cmds ==> cmd.ApplyMode? || cmd.ReplaceIdleStages?
    ensures !Starts(Sent(w, m), id) && CancelTimer(id) !in Sent(w, m) && !Pursues(Sent(w, m))
  {
    hide SetConfig, Load;
  }

  lemma AnswerOnItsWay(w: World, m: Move, id: TimerId, left: bool)
    requires Inv(w) && Legal(w, m) && w.queue != [] && CycleTimer(id) && OnItsWay(w, id, left) && Fed(w, m).Some?
    ensures OnItsWay(Perform(w, m), id, left)
  {
    hide Inv, Perform, Virtual, After, Handle, Found, Pursues, NoRetryInCycle, Starts, Legal;
    var e := Fed(w, m).value;
    NotDown(w, m);
    FedTurn(w, m);
    FoundEffects(w, m);
    NoRetry(w);
    MidDrain(w, m);
    TakesBackExactly(w.core, e, id);
    PivotsPursue(Virtual(Found(w, m)), Sent(w, m));
    if !Perform(w, m).core.state.LongSleep? {
      LeavingStartsNone(w.core, e, id);
      TimerAfter(Virtual(Found(w, m)), Sent(w, m), id);
      StillCritical(w.core, e);
    } else if Pursuing(Perform(w, m)) {
      EntersNoCycle(w.core, e);
      PursuesQuietly(w.core, e, id);
      TimerAfter(Virtual(Found(w, m)), Sent(w, m), id);
    }
  }

  /** What is fed back in mid-drain was asked for, and by whom. */
  lemma MidDrain(w: World, m: Move)
    requires Inv(w) && Legal(w, m) && w.queue != [] && Fed(w, m).Some?
    ensures Fed(w, m).value == SleepFailed || Fed(w, m).value.WakeScheduled?
    ensures w.core.state == LongSleep(Armed) ==> Pursuing(w)
    ensures w.core.state.LongSleep? && w.core.state != LongSleep(Armed) ==>
              w.core.state == LongSleep(Checking) && Fed(w, m).value == SleepFailed
    ensures Fed(w, m).value.WakeScheduled? ==> w.core.state == LongSleep(Armed)
  {
    hide Inv, After, Perform, Blocked, BatteryCritical;
    NotDown(w, m);
    assert m.Drain?;
    HeadPivot(w);
    assert Virtual(w).pivots == [w.queue[0]];
    assert w.queue[0] in Virtual(w).pivots;
  }

  lemma StillCritical(c: Core, e: Event)
    ensures e == SleepFailed && c.state == LongSleep(Checking) ==> Handle(c, e).core.state == c.state
  {
  }

  lemma EntersNoCycle(c: Core, e: Event)
    requires e == SleepFailed || e.WakeScheduled?
    requires Handle(c, e).core.state.LongSleep? && NoRetryInCycle(c)
    ensures c.state.LongSleep?
  {
    hide Handle, Blocked;
    FollowsTheTable(c, e);
  }

  // --------------------------------------------------------- the hardware alarm

  /** An alarm is written to `d`; the second 0 of the epoch would clear it. */
  predicate Writes(w: World, m: Move, d: Device) {
    && Legal(w, m) && m.Drain? && w.queue[0].ScheduleWake? && w.rtc == Some(d)
    && m.answer.writes == (true, true)
    && EpochFor(m.answer.now + w.queue[0].after, m.answer.setNow).Ok?
    && EpochFor(m.answer.now + w.queue[0].after, m.answer.setNow).value > 0
  }

  /** The alarm in `d` goes off, is cleared, or is cleared for another one that
      then cannot be written. */
  predicate Empties(w: World, m: Move, d: Device) {
    && Legal(w, m)
    && (if m.Take? then m.input == AlarmRings(d)
        else
          && w.rtc == Some(d)
          && ((w.queue[0] == CancelWake && m.answer.clears)
              || (w.queue[0].ScheduleWake? && !Writes(w, m, d) && m.answer.writes.0
                  && EpochFor(m.answer.now + w.queue[0].after, m.answer.setNow).Ok?)))
  }

  lemma CellTurn(w: World, m: Move, d: Device)
    requires Legal(w, m)
    ensures d in Perform(w, m).cells <==> Writes(w, m, d) || (d in w.cells && !Empties(w, m, d))
  {
    match m
    case Drain(a) => CellDrained(w, a, d);
    case Take(i) => CellTaken(w, i, d);
  }

  lemma CellTaken(w: World, i: Input, d: Device)
    requires Possible(w, i)
    ensures d in Receive(w, i).cells <==> d in w.cells && i != AlarmRings(d)
    ensures Receive(w, i).rtc == w.rtc && Receive(w, i).missed == w.missed
    ensures i.AlarmRings? || Receive(w, i).cells == w.cells
  {
    hide Handle, CountFailures, Strands, ClassifyWake;
    if Fed(w, Take(i)).Some? {
      hide Deliver, WakeEvent, Receive;
      TakeIsFeedBack(w, i);
      DeliverCells(Found(w, Take(i)), Fed(w, Take(i)).value);
      FoundCells(w, i);
    }
  }

  lemma DeliverCells(w: World, e: Event)
    ensures Deliver(w, e).cells == w.cells && Deliver(w, e).rtc == w.rtc && Deliver(w, e).missed == w.missed
    ensures FeedBack(w, e).cells == w.cells && FeedBack(w, e).rtc == w.rtc && FeedBack(w, e).missed == w.missed
  {
    hide Handle, CountFailures, Strands;
  }

  lemma FoundCells(w: World, i: Input)
    ensures var f := Found(w, Take(i)); f.cells == w.cells && f.rtc == w.rtc && f.missed == w.missed
  {
    hide ClassifyWake;
  }

  lemma CellArmed(w: World, a: Answer, d: Device)
    requires w.queue != [] && w.queue[0].ScheduleWake?
    ensures Legal(w, Drain(a)) ==>
              (d in Alarmed(w, a).cells <==> Writes(w, Drain(a), d) || (d in w.cells && !Empties(w, Drain(a), d)))
  {
  }

  lemma CellDrained(w: World, a: Answer, d: Device)
    requires w.queue != [] && !w.down
    ensures d in Execute(w, a).cells <==> Writes(w, Drain(a), d) || (d in w.cells && !Empties(w, Drain(a), d))
  {
    hide Execute, Writes, Empties, IsPivot;
    if !w.queue[0].ScheduleWake? && w.queue[0] != CancelWake {
      ElsewhereUntouched(w, a, d);
    }
    if w.queue[0].ScheduleWake? {
      CellScheduled(w, a, d);
    } else if w.queue[0] == CancelWake {
      CellCleared(w, a, d);
    } else if IsPivot(w.queue[0]) {
      CellPivot(w, a);
    } else {
      EffectFrame(w, a);
    }
  }

  lemma ElsewhereUntouched(w: World, a: Answer, d: Device)
    requires w.queue != [] && !w.queue[0].ScheduleWake? && w.queue[0] != CancelWake
    ensures !Writes(w, Drain(a), d) && !Empties(w, Drain(a), d)
  {
  }

  lemma CellScheduled(w: World, a: Answer, d: Device)
    requires w.queue != [] && w.queue[0].ScheduleWake? && !w.down
    ensures d in Execute(w, a).cells <==> Writes(w, Drain(a), d) || (d in w.cells && !Empties(w, Drain(a), d))
  {
    hide FeedBack, ArmRtc;
    DeliverCells(Alarmed(w, a), WakeScheduled(ArmRtc(w.rtc, w.cells, a.now + w.queue[0].after, a).0));
    CellArmed(w, a, d);
  }

  lemma CellCleared(w: World, a: Answer, d: Device)
    requires w.queue != [] && w.queue[0] == CancelWake && !w.down
    ensures d in Execute(w, a).cells <==> Writes(w, Drain(a), d) || (d in w.cells && !Empties(w, Drain(a), d))
  {
    hide Apply;
  }

  lemma CellPivot(w: World, a: Answer)
    requires w.queue != [] && IsPivot(w.queue[0]) && !w.queue[0].ScheduleWake?
    ensures Execute(w, a).cells == w.cells
  {
    hide FeedBack, SetConfig, Load;
    DeliverCells(w.(queue := w.queue[1..]), SleepFailed);
  }

  // ------------------------------------------------ alarms out of reach

  /** An alarm in a device the daemon has no handle for. */
  predicate Orphan(w: World, d: Device) {
    d in w.cells && w.rtc != Some(d)
  }

  /** A reload is accepted and changes `[server]`: the handle is looked up anew. */
  predicate Rehandles(w: World, m: Move) {
    Legal(w, m) && m.Drain? && Loaded(w, m).Some? && Loaded(w, m).value.server != w.core.config.server
  }

  predicate Orphans(w: World, m: Move, d: Device) {
    Rehandles(w, m) && d in w.cells && w.rtc == Some(d) && RtcFor(Loaded(w, m).value, m.answer.discovered) != Some(d)
  }

  predicate Adopts(w: World, m: Move, d: Device) {
    || (Legal(w, m) && m == Take(AlarmRings(d)))
    || (Rehandles(w, m) && RtcFor(Loaded(w, m).value, m.answer.discovered) == Some(d))
  }

  lemma HandleTurn(w: World, m: Move)
    requires Legal(w, m)
    ensures Perform(w, m).rtc == if Rehandles(w, m) then RtcFor(Loaded(w, m).value, m.answer.discovered) else w.rtc
    ensures Rehandles(w, m) ==> Perform(w, m).cells == w.cells && Perform(w, m).missed == w.missed
  {
    hide FeedBack, Apply, SetConfig, Load, ArmRtc, RtcFor, Receive;
    match m
    case Drain(a) =>
      if w.queue[0].GoToSleep? {
        DeliverCells(w.(queue := w.queue[1..]), SleepFailed);
      } else if w.queue[0].ScheduleWake? {
        DeliverCells(Alarmed(w, a), WakeScheduled(ArmRtc(w.rtc, w.cells, a.now + w.queue[0].after, a).0));
      }
    case Take(i) => CellTaken(w, i, "");
  }

  lemma OrphanTurn(w: World, m: Move, d: Device)
    requires Legal(w, m)
    ensures Orphan(Perform(w, m), d) <==> Orphans(w, m, d) || (Orphan(w, d) && !Adopts(w, m, d))
  {
    hide Perform, Load, RtcFor;
    HandleTurn(w, m);
    CellTurn(w, m, d);
  }

  /** A clear that leaves the alarm in `d` behind. */
  predicate LeavesBehind(w: World, m: Move, d: Device) {
    Legal(w, m) && m.Drain? && w.queue[0] == CancelWake && d in w.cells && !(w.rtc == Some(d) && m.answer.clears)
  }

  lemma MissedTurn(w: World, m: Move)
    requires Legal(w, m)
    ensures Perform(w, m).missed <==> w.missed || exists d :: LeavesBehind(w, m, d)
  {
    hide FeedBack, Apply, SetConfig, Load, ArmRtc, RtcFor, Receive;
    match m
    case Drain(a) =>
      if w.queue[0].GoToSleep? {
        DeliverCells(w.(queue := w.queue[1..]), SleepFailed);
      } else if w.queue[0].ScheduleWake? {
        DeliverCells(Alarmed(w, a), WakeScheduled(ArmRtc(w.rtc, w.cells, a.now + w.queue[0].after, a).0));
      } else if w.queue[0] == CancelWake {
        LeftBehind(w, a);
      }
    case Take(i) => CellTaken(w, i, "");
  }

  lemma LeftBehind(w: World, a: Answer)
    requires w.queue != [] && w.queue[0] == CancelWake && !w.down
    ensures ClearRtc(w.rtc, w.cells, a.clears) != map[] <==> exists d :: LeavesBehind(w, Drain(a), d)
  {
    var cells := ClearRtc(w.rtc, w.cells, a.clears);
    assert forall d :: d in cells <==> LeavesBehind(w, Drain(a), d);
    if cells != map[] {
      assert cells.Keys != {};
      var d :| d in cells.Keys;
      assert LeavesBehind(w, Drain(a), d);
    }
  }

  predicate Cancels(m: Move, w: World) {
    m.Drain? && w.queue != [] && w.queue[0] == CancelWake
  }

  /** A written alarm counts until the next CancelWake is executed. */
  lemma LiveTurn(w: World, m: Move, d: Device)
    requires Legal(w, m) && !Cancels(m, w) && (w.fx.live || Writes(w, m, d))
    ensures Perform(w, m).fx.live
  {
    hide Perform, Handle, ArmRtc, EpochFor;
    if Fed(w, m).Some? {
      FedIsFeedBack(w, m);
      FeedBackIs(Found(w, m), Fed(w, m).value);
      FoundLive(w, m, d);
    } else {
      LiveElsewhere(w, m);
    }
  }

  lemma FoundLive(w: World, m: Move, d: Device)
    requires Legal(w, m) && Fed(w, m).Some? && (w.fx.live || Writes(w, m, d))
    ensures Found(w, m).fx.live
  {
    hide ClassifyWake;
  }

  lemma LiveElsewhere(w: World, m: Move)
    requires Legal(w, m) && Fed(w, m).None? && !Cancels(m, w) && w.fx.live
    ensures Perform(w, m).fx.live
  {
    hide Execute, Receive, IsPivot;
    match m
    case Drain(a) =>
      if IsPivot(w.queue[0]) {
        LivePivot(w, a);
      } else {
        EffectFrame(w, a);
      }
    case Take(i) => AsideAlarm(w, i);
  }

  lemma LivePivot(w: World, a: Answer)
    requires w.queue != [] && IsPivot(w.queue[0]) && Fed(w, Drain(a)).None?
    ensures Execute(w, a).fx.live == w.fx.live
  {
    hide SetConfig, Load, RtcFor, A.SetDisplay;
  }

  // ------------------------------------------------- granted inhibitors

  /** A sleep inhibitor is granted under this id. */
  predicate Grants(w: World, m: Move, id: nat) {
    && Legal(w, m) && m.Take? && m.input.Client? && m.input.request.AddInhibit?
    && m.input.request.what == InhibitSleep && m.input.request.ttl > 0 && w.core.nextInhibitId == id
  }

  /** It is taken back by a client, or runs out. */
  predicate Revokes(w: World, m: Move, id: nat) {
    && Legal(w, m) && m.Take?
    && (m.input == TimerDue(InhibitExpiry(id)) || (m.input.Client? && m.input.request == Uninhibit(id)))
  }

  predicate InhibitsSleep(inhibits: seq<Inhibit>, id: nat) {
    exists i | i in inhibits :: i.id == id && i.what == InhibitSleep
  }

  lemma InhibitTurn(w: World, m: Move, id: nat)
    requires Inv(w) && Legal(w, m)
    ensures InhibitsSleep(Perform(w, m).core.inhibits, id) <==>
              Grants(w, m, id) || (InhibitsSleep(w.core.inhibits, id) && !Revokes(w, m, id))
  {
    hide Inv, Perform, Legal, Virtual, Handle, SetConfig, Load, After, InhibitsSleep;
    NotDown(w, m);
    if Fed(w, m).Some? {
      FedTurn(w, m);
      TableExactly(w.core, Fed(w, m).value);
      TableIsOk(w);
      TableChanges(w, m, id);
    } else if Loaded(w, m).Some? {
      LoadedTurn(w, m);
      SetConfigFrame(w.core, Loaded(w, m).value);
    } else {
      PlainTurn(w, m);
    }
  }

  lemma TableIsOk(w: World)
    requires Inv(w) && !w.down
    ensures TableOk(w.core.inhibits, w.core.nextInhibitId)
  {
    hide After, TimersOk, ExpiriesOk, AlarmOk, StagesOk, PivotsOk, PanelOk, RestOk, CountOk, TableOk;
  }

  lemma TableChanges(w: World, m: Move, id: nat)
    requires Inv(w) && Legal(w, m) && Fed(w, m).Some? && TableOk(w.core.inhibits, w.core.nextInhibitId)
    ensures InhibitsSleep(TableAfter(w.core, Fed(w, m).value), id) <==>
              Grants(w, m, id) || (InhibitsSleep(w.core.inhibits, id) && !Revokes(w, m, id))
  {
    hide Inv, TableOk, RemoveInhibit, ClassifyWake, InhibitsSleep, ArmRtc;
    NotDown(w, m);
    var c := w.core;
    if m.Take? && m.input.Client? && m.input.request.AddInhibit? && m.input.request.ttl > 0 {
      var r := m.input.request;
      OneMore(c.inhibits, Inhibit(c.nextInhibitId, r.what, r.why, Min(r.ttl, MAX_INHIBIT_TTL)), id);
    } else if m.Take? && m.input.Client? && m.input.request.Uninhibit? {
      OneLess(c.inhibits, m.input.request.inhibit, c.nextInhibitId, id);
    } else if m.Take? && m.input.TimerDue? && m.input.timer.InhibitExpiry? {
      OneLess(c.inhibits, m.input.timer.id, c.nextInhibitId, id);
    } else if m.Take? && m.input.PowerMoves? {
      PowerEvents(w);
    }
  }

  lemma OneMore(inhibits: seq<Inhibit>, i: Inhibit, id: nat)
    ensures InhibitsSleep(inhibits + [i], id) <==> InhibitsSleep(inhibits, id) || (i.id == id && i.what == InhibitSleep)
  {
    assert forall x :: x in inhibits + [i] <==> x in inhibits || x == i;
  }

  lemma OneLess(inhibits: seq<Inhibit>, gone: nat, next: nat, id: nat)
    requires TableOk(inhibits, next)
    ensures InhibitsSleep(RemoveInhibit(inhibits, gone), id) <==> InhibitsSleep(inhibits, id) && id != gone
  {
    hide TableOk, RemoveInhibit;
    RemoveInhibitExactly(inhibits, gone, next);
  }

  // --------------------------------------- the alarm a suspend relies on

  /** The handle's device holds exactly the second that is remembered (a second
      0 cannot be written to it). */
  predicate AlarmSet(w: World) {
    && w.rtc.Some? && w.fx.scheduled.Some? && w.fx.scheduled.value >= 0
    && (w.fx.scheduled.value >= SECOND ==>
          w.rtc.value in w.cells && w.cells[w.rtc.value] == w.fx.scheduled.value / SECOND)
  }

  ghost predicate AboutToSleep(w: World) {
    w.core.state.LongSleep? && exists how :: GoToSleep(how, false) in Virtual(w).pivots
  }

  predicate Rings(w: World, m: Move) {
    Legal(w, m) && m.Take? && m.input.AlarmRings?
  }

  predicate Schedules(w: World, m: Move) {
    Legal(w, m) && m.Drain? && w.queue[0].ScheduleWake?
  }

  /** Nothing comes between the write and the suspend but the alarm itself. */
  lemma AlarmTurn(w: World, m: Move)
    requires Inv(w) && Legal(w, m) && AboutToSleep(Perform(w, m))
    ensures Schedules(w, m) ==> AlarmSet(Perform(w, m))
    ensures !Schedules(w, m) ==> AboutToSleep(w) && (AlarmSet(w) && !Rings(w, m) ==> AlarmSet(Perform(w, m)))
  {
    hide Inv, Legal, Perform, Virtual, AlarmSet;
    if Fed(w, m).Some? {
      AlarmFed(w, m);
    } else if Loaded(w, m).Some? {
      AlarmReloaded(w, m);
    } else {
      AlarmPlain(w, m);
    }
  }

  lemma AlarmReloaded(w: World, m: Move)
    requires Inv(w) && Legal(w, m) && Loaded(w, m).Some?
    ensures !AboutToSleep(Perform(w, m))
  {
    hide Inv, Perform, Virtual, SetConfig, After, Load;
    NotDown(w, m);
    LoadedTurn(w, m);
    ConfigPursuesNothing(w.core, Loaded(w, m).value);
    PivotsCollected(Virtual(w).(pivots := []), Sent(w, m));
  }

  lemma AlarmPlain(w: World, m: Move)
    requires Inv(w) && Legal(w, m) && Fed(w, m).None? && Loaded(w, m).None? && AboutToSleep(Perform(w, m))
    ensures !Schedules(w, m) && AboutToSleep(w) && (AlarmSet(w) && !Rings(w, m) ==> AlarmSet(Perform(w, m)))
  {
    hide Inv, Execute, Receive, Virtual;
    NotDown(w, m);
    PlainTurn(w, m);
    match m
    case Drain(a) => AlarmUntouched(w, a);
    case Take(i) => AsideAlarm(w, i);
  }

  lemma AsideAlarm(w: World, i: Input)
    requires Possible(w, i) && Fed(w, Take(i)).None?
    ensures var w' := Receive(w, i); w'.rtc == w.rtc && w'.fx == w.fx && (!i.AlarmRings? ==> w'.cells == w.cells)
  {
    hide Deliver, A.Register, A.Unregister, A.Note;
  }

  lemma AlarmUntouched(w: World, a: Answer)
    requires Inv(w) && !w.down && w.queue != [] && !IsPivot(w.queue[0]) && AboutToSleep(w)
    ensures var w' := Execute(w, a); w'.rtc == w.rtc && w'.fx.scheduled == w.fx.scheduled && w'.cells == w.cells
  {
    hide Execute, Apply, After, RestOk, CountOk, PanelOk, Blocked, BatteryCritical;
    var how :| GoToSleep(how, false) in Virtual(w).pivots;
    assert PivotOk(w.core, Virtual(w), ContextOf(w), GoToSleep(how, false));
    AlarmAfter(w.fx, w.fx.scheduled, w.fx.live, w.queue);
    assert w.queue[0] != CancelWake;
    EffectFrame(w, a);
    ApplyKeepsAlarm(w.fx, w.fx.scheduled, w.fx.live, w.queue[0]);
  }

  lemma AlarmFed(w: World, m: Move)
    requires Inv(w) && Legal(w, m) && Fed(w, m).Some? && AboutToSleep(Perform(w, m))
    ensures Schedules(w, m) && AlarmSet(Perform(w, m))
  {
    hide Inv, Execute, Receive, Virtual, After, Handle, Found, NoRetryInCycle, Blocked, BatteryCritical, AlarmSet, ArmRtc;
    var e := Fed(w, m).value;
    NotDown(w, m);
    FedTurn(w, m);
    FoundEffects(w, m);
    NoRetry(w);
    PivotsCollected(Virtual(Found(w, m)), Sent(w, m));
    EveryCommandLicensed(w.core, e);
    var how :| GoToSleep(how, false) in Virtual(Perform(w, m)).pivots;
    assert Licensed(w.core.state, e, Handle(w.core, e).core, GoToSleep(how, false));
    assert e == WakeScheduled(true);
    WakeIsFedBack(w, m);
    AlarmWritten(w, m.answer);
  }

  lemma WakeIsFedBack(w: World, m: Move)
    requires Inv(w) && Legal(w, m) && Fed(w, m) == Some(WakeScheduled(true))
    ensures Schedules(w, m) && ArmRtc(w.rtc, w.cells, m.answer.now + w.queue[0].after, m.answer).0
  {
    hide Inv, ArmRtc, ClassifyWake;
    NotDown(w, m);
    if m.Take? && m.input.PowerMoves? {
      PowerEvents(w);
    }
  }

  lemma AlarmWritten(w: World, a: Answer)
    requires Legal(w, Drain(a)) && w.queue[0].ScheduleWake?
    requires ArmRtc(w.rtc, w.cells, a.now + w.queue[0].after, a).0
    ensures AlarmSet(Execute(w, a))
  {
    hide Handle, CountFailures;
    var at := a.now + w.queue[0].after;
    assert at >= SECOND ==> at / SECOND > 0;
  }

  // ------------------------------------------------------ a mode that is gone

  /** A reload drops the entry of the manual mode. */
  predicate DropsMode(w: World, m: Move) {
    Legal(w, m) && Loaded(w, m).Some? && w.core.mode.Manual? && w.core.mode.name !in Loaded(w, m).value.modes
  }

  /** A client chooses, or a reload brings the entry back. */
  predicate SettlesMode(w: World, m: Move) {
    && Legal(w, m)
    && ((Fed(w, m).Some? && Chooses(w.core, Fed(w, m).value)) || (Loaded(w, m).Some? && !DropsMode(w, m)))
  }

  lemma ModeTurn(w: World, m: Move)
    requires Inv(w) && Legal(w, m)
    ensures Dangling(Perform(w, m).core) <==> DropsMode(w, m) || (Dangling(w.core) && !SettlesMode(w, m))
  {
    hide Inv, Legal, Perform, Virtual, Handle, After, SetConfig, Load, Chooses;
    NotDown(w, m);
    if Fed(w, m).Some? {
      FedTurn(w, m);
      var e := Fed(w, m).value;
      OneOrTheOther(w, m);
      if Chooses(w.core, e) {
        ChoosingIsSound(w.core, e);
      } else {
        ChoiceKept(w.core, e);
      }
    } else if Loaded(w, m).Some? {
      LoadedTurn(w, m);
      ConfigKeepsManual(w.core, Loaded(w, m).value);
    } else {
      PlainTurn(w, m);
    }
  }

  lemma OneOrTheOther(w: World, m: Move)
    ensures Fed(w, m).Some? ==> Loaded(w, m).None?
  {
    hide Load, ArmRtc;
  }

  lemma ConfigKeepsManual(c: Core, config: Config)
    ensures var d := SetConfig(c, config).core;
            d.config == config && (if c.mode.Manual? then d.mode == c.mode else d.mode.Auto?)
  {
    hide AutoModeName, ComputeLow;
  }
}
