/** The server cycle from the alarm to what a wake leads to: when the machine is
    to be woken, whose wake it was, and when it is powered off or hibernated. */
module Waking {
  import opened Types
  import opened Transition
  import opened Effects
  import opened Invariants
  import opened Discipline
  import opened Choices
  import opened Outcomes
  import opened Sends
  import opened Fields
  import opened Wake
  import opened World
  import opened Safety
  import opened Turns
  import opened Histories
  import opened Runs

  // ------------------------------------------------------------- the alarm

  /** The alarm is one check interval away from when it is asked for. It is
      remembered exactly if the device is there, at least a minute of that is
      left and both writes work; then the device holds its second. */
  lemma AlarmExactly(b: Boot, ws: seq<World>, ms: seq<Move>, k: nat)
    requires IsRun(b, ws, ms) && k < |ms| && ms[k].Drain? && ws[k].queue[0].ScheduleWake?
    ensures var w, w', a := ws[k], ws[k + 1], ms[k].answer;
            var at := a.now + w.core.config.server.checkInterval;
            var written := w.rtc.Some? && at >= a.setNow + 60 * SECOND && at >= 0 && a.writes == (true, true);
            && w.core.state == LongSleep(Armed)
            && w'.fx.scheduled == (if written then Some(at) else None)
            && (written && at >= SECOND ==> w.rtc.value in w'.cells && w'.cells[w.rtc.value] == at / SECOND)
            && (!written && w.rtc.Some? && w.rtc.value in w'.cells ==>
                  w.rtc.value in w.cells && w'.cells[w.rtc.value] == w.cells[w.rtc.value])
  {
    hide Inv, Perform, Legal, Alarmed, ArmRtc, Execute;
    var w, a := ws[k], ms[k].answer;
    RunKeepsInv(b, ws, ms, k);
    assert Legal(w, ms[k]) && ws[k + 1] == Perform(w, ms[k]);
    NotDown(w, ms[k]);
    HeadPivot(w);
    AlarmWrites(w, a);
    FeedsBackOnly(w, a);
    PerformsIt(w, a);
  }

  lemma PerformsIt(w: World, a: Answer)
    requires Legal(w, Drain(a))
    ensures Perform(w, Drain(a)) == Execute(w, a)
  {
  }

  lemma AlarmWrites(w: World, a: Answer)
    requires w.queue != [] && w.queue[0].ScheduleWake?
    ensures var w', at := Alarmed(w, a), a.now + w.queue[0].after;
            var written := w.rtc.Some? && at >= a.setNow + 60 * SECOND && at >= 0 && a.writes == (true, true);
            && w'.fx.scheduled == (if written then Some(at) else None)
            && (written && at >= SECOND ==> w.rtc.value in w'.cells && w'.cells[w.rtc.value] == at / SECOND)
            && (!written && w.rtc.Some? && w.rtc.value in w'.cells ==>
                  w.rtc.value in w.cells && w'.cells[w.rtc.value] == w.cells[w.rtc.value])
  {
    hide ArmRtc;
    WrittenIff(w.rtc, w.cells, a.now + w.queue[0].after, a);
  }

  lemma FeedsBackOnly(w: World, a: Answer)
    requires w.queue != [] && w.queue[0].ScheduleWake?
    ensures var w' := Execute(w, a);
            w'.fx == Alarmed(w, a).fx && w'.cells == Alarmed(w, a).cells
  {
    hide ArmRtc, Handle, CountFailures;
  }

  lemma WrittenIff(rtc: Option<Device>, cells: map<Device, nat>, at: Instant, a: Answer)
    ensures var (armed, left) := ArmRtc(rtc, cells, at, a);
            && (armed <==> rtc.Some? && at >= a.setNow + 60 * SECOND && at >= 0 && a.writes == (true, true))
            && (armed && at >= SECOND ==> rtc.value in left && left[rtc.value] == at / SECOND)
            && (!armed && rtc.Some? && rtc.value in left ==> rtc.value in cells && left[rtc.value] == cells[rtc.value])
  {
    if at >= SECOND {
      assert at / SECOND > 0;
    }
  }

  /** What logind is asked for when a suspend is executed: what the config says,
      or hibernation at the critical level of the cycle; and a plain suspend
      instead exactly where hibernating is needed and cannot be had. */
  lemma AskedForExactly(b: Boot, ws: seq<World>, ms: seq<Move>, k: nat)
    requires IsRun(b, ws, ms) && k < |ws| && !ws[k].down && ws[k].logind.Some?
    requires ws[k].queue != [] && ws[k].queue[0].GoToSleep?
    ensures var w, how, can := ws[k], ws[k].queue[0].how, ws[k].logind.value;
            && how == (if w.queue[0].force && w.core.state.LongSleep? then Hibernate else w.core.config.sleep.how)
            && (Usable(how, can) == how <==> can || how == Suspend)
            && (Usable(how, can) != how ==> Usable(how, can) == Suspend)
  {
    RunKeepsInv(b, ws, ms, k);
    HeadPivot(ws[k]);
  }

  // -------------------------------------------------------- whose wake it was

  /** The wake comes when the alarm was expected, give or take the slack. */
  predicate OnTime(w: World, now: Instant) {
    && w.fx.scheduled.Some?
    && w.fx.scheduled.value - w.core.config.server.alarmSlack <= now <= w.fx.scheduled.value + w.core.config.server.alarmSlack
  }

  lemma WakeIs(w: World, now: Instant)
    requires w.core.state == LongSleep(Asleep)
    ensures Fed(w, Take(WakesUp(now))) == Some(if OnTime(w, now) then Resumed else ResumedByUser)
    ensures Found(w, Take(WakesUp(now))).fx == w.fx.(scheduled := None)
  {
  }

  /** A wake in the cycle with no power goes on looking for it exactly if it came
      on time; otherwise the user has opened the machine, and the cycle is over
      and said to have been interrupted. With power it is over in any case. */
  lemma WakeExactly(b: Boot, ws: seq<World>, ms: seq<Move>, k: nat, now: Instant)
    requires IsRun(b, ws, ms) && k < |ms| && ms[k] == Take(WakesUp(now)) && ws[k].core.state == LongSleep(Asleep)
    ensures var w, w' := ws[k], ws[k + 1];
            && w'.fx.scheduled == None
            && (if w.core.ac then w'.core.state == Active
                else if OnTime(w, now) then w'.core.state == LongSleep(Checking)
                else w'.core.state == Active && Broadcast(PhaseChange(Interrupted)) in w'.queue)
            && (!OnTime(w, now) ==> !ActsCritically(w'.queue))
  {
    hide Inv, Perform, Legal, Handle, OnTime, Due, Found;
    var w, m := ws[k], ms[k];
    assert Legal(w, m) && ws[k + 1] == Perform(w, m);
    RunKeepsInv(b, ws, ms, k);
    NotDown(w, m);
    WakeIs(w, now);
    FedTurn(w, m);
    EngineExactly(b, ws, ms, k);
    TakeFound(w, m.input);
    assert w.queue + Sent(w, m) == Sent(w, m);
    if !OnTime(w, now) {
      NotForTheUser(w.core);
      if !w.core.ac {
        InterruptedIsDue(w.core, ws[k + 1].core.mode);
      }
    }
  }

  lemma InterruptedIsDue(c: Core, m: ModeSelection)
    requires c.state == LongSleep(Asleep) && !c.ac
    ensures Due(c, ResumedByUser, Active, m, Broadcast(PhaseChange(Interrupted)))
  {
  }

  lemma NotForTheUser(c: Core)
    ensures forall cmd, n, m {:trigger Due(c, ResumedByUser, n, m, cmd)} :: c.state.LongSleep? && Due(c, ResumedByUser, n, m, cmd) ==>
              cmd != PowerOff && !(cmd.GoToSleep? && cmd.force)
  {
    hide Hindered, OutOfPower;
  }

  // ----------------------------------------------------- the critical action

  /** What the config asks for at the critical level, if it can be had. */
  predicate IsLastResort(c: Core, cmd: Command) {
    if c.config.server.criticalAction == CriticalHibernate && c.hibernateAvailable then cmd == GoToSleep(Hibernate, true)
    else cmd == PowerOff
  }

  predicate IsCriticalAction(cmd: Command) {
    cmd == PowerOff || (cmd.GoToSleep? && cmd.force)
  }

  /** Without power and with the battery at or below the critical level, the
      machine looks for power: because a window is over, or because the alarm has
      woken it. */
  predicate LooksInTime(w: World, m: Move) {
    && Legal(w, m) && m.Take? && w.core.state.LongSleep?
    && !w.core.ac && w.core.battery.Some? && w.core.battery.value <= w.core.config.server.criticalPercent
    && (match m.input
        case TimerDue(id) => id == AwakeWindow && w.core.state == LongSleep(Checking)
        case WakesUp(now) => w.core.state == LongSleep(Asleep) ==> OnTime(w, now)
        case _ => false)
  }

  /** Another event reaches the engine. */
  predicate TakesEvent(w: World, m: Move) {
    m.Take? && Fed(w, m).Some?
  }

  ghost predicate CriticalAhead(w: World) {
    w.core.state.LongSleep? && exists cmd :: cmd in Virtual(w).pivots && IsCriticalAction(cmd)
  }

  lemma CriticalTurn(w: World, m: Move)
    requires Inv(w) && Legal(w, m)
    ensures CriticalAhead(Perform(w, m)) ==> LooksInTime(w, m) || (CriticalAhead(w) && !TakesEvent(w, m))
  {
    hide Inv, Perform, Legal, Virtual, Handle, Found, SetConfig, After, Load, LooksInTime;
    NotDown(w, m);
    if Fed(w, m).Some? {
      if CriticalAhead(Perform(w, m)) {
        CriticalFed(w, m);
      }
    } else if Loaded(w, m).Some? {
      LoadedTurn(w, m);
      ConfigPursuesNothing(w.core, Loaded(w, m).value);
      PivotsCollected(Virtual(w).(pivots := []), Sent(w, m));
    } else {
      PlainTurn(w, m);
    }
  }

  lemma CriticalFed(w: World, m: Move)
    requires Inv(w) && Legal(w, m) && Fed(w, m).Some? && CriticalAhead(Perform(w, m))
    ensures LooksInTime(w, m)
  {
    hide Inv, Perform, Legal, Virtual, Handle, Found, After, NextState, Hindered, Holds, OutOfPower, LooksInTime;
    NotDown(w, m);
    var e := Fed(w, m).value;
    FedTurn(w, m);
    FoundEffects(w, m);
    PivotsCollected(Virtual(Found(w, m)), Sent(w, m));
    NoRetry(w);
    var cmd :| cmd in Virtual(Perform(w, m)).pivots && IsCriticalAction(cmd);
    ComesFromTheCycle(w.core, e, cmd);
    CriticalActionExactly(w.core, e);
    assert ActsCritically(Sent(w, m));
    LooksOnTime(w, m);
  }

  lemma ComesFromTheCycle(c: Core, e: Event, cmd: Command)
    requires NoRetryInCycle(c) && cmd in Handle(c, e).cmds && IsCriticalAction(cmd) && Handle(c, e).core.state.LongSleep?
    ensures c.state.LongSleep?
  {
    hide Handle, Hindered;
    EveryCommandLicensed(c, e);
    assert Licensed(c.state, e, Handle(c, e).core, cmd);
  }

  lemma LooksOnTime(w: World, m: Move)
    requires Legal(w, m) && Fed(w, m).Some? && LooksForPower(w.core, Fed(w, m).value) && OutOfPower(w.core)
    requires Inv(w) && w.core.state.LongSleep?
    ensures LooksInTime(w, m)
  {
    hide Inv, ArmRtc;
    if m.Take? && m.input.PowerMoves? {
      PowerEvents(w);
    }
  }

  /** The machine is powered off, or hibernated in the cycle, as the config has
      it, only below the critical level and without power, and only when power
      has just been looked for in time: never after a wake by the user. */
  lemma CriticalInTime(b: Boot, ws: seq<World>, ms: seq<Move>, k: nat)
    requires IsRun(b, ws, ms) && k < |ws| && !ws[k].down && ws[k].queue != []
    requires ws[k].queue[0] == PowerOff || (ws[k].queue[0].GoToSleep? && ws[k].queue[0].force && ws[k].core.state.LongSleep?)
    ensures var c := ws[k].core;
            && c.state == LongSleep(Checking) && !c.ac
            && c.battery.Some? && c.battery.value <= c.config.server.criticalPercent
            && IsLastResort(c, ws[k].queue[0])
            && (ws[k].queue[0].GoToSleep? ==> ws[k].logind == Some(true))
    ensures Since(LooksInTime, TakesEvent, ws, ms, k)
  {
    hide Since, LooksInTime, TakesEvent, CriticalAhead;
    var w := ws[k];
    RunKeepsInv(b, ws, ms, k);
    HeadPivot(w);
    assert CriticalAhead(w) by { HeadIsAhead(w); }
    CriticalSince(b, ws, ms, k);
  }

  lemma HeadIsAhead(w: World)
    requires w.core.state.LongSleep? && w.queue != [] && IsCriticalAction(w.queue[0]) && Virtual(w).pivots == [w.queue[0]]
    ensures CriticalAhead(w)
  {
    hide Virtual;
    assert w.queue[0] in Virtual(w).pivots;
  }

  lemma {:induction false} CriticalSince(b: Boot, ws: seq<World>, ms: seq<Move>, k: nat)
    requires IsRun(b, ws, ms) && k < |ws| && CriticalAhead(ws[k])
    ensures Since(LooksInTime, TakesEvent, ws, ms, k)
  {
    hide Inv, CriticalAhead, LooksInTime, TakesEvent, Perform, Legal, Start, Since;
    if k == 0 {
      StartsUncritical(b);
    } else {
      RunKeepsInv(b, ws, ms, k - 1);
      var w, m := ws[k - 1], ms[k - 1];
      assert Legal(w, m) && ws[k] == Perform(w, m);
      CriticalTurn(w, m);
      SinceStep(LooksInTime, TakesEvent, ws, ms, k - 1);
      if !LooksInTime(w, m) {
        CriticalSince(b, ws, ms, k - 1);
      }
    }
  }

  lemma StartsUncritical(b: Boot)
    ensures !CriticalAhead(Start(b))
  {
    hide ModeCommands, StartCore, StartOut, After;
    StartOutShape(b);
    StartEffect(b);
  }
}
