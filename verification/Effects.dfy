/** What a queue of commands is going to do to the parts of the daemon that
    commands drive: the timer registry, the planner, the agent's stages, the
    panel, the subscribers and the clients.

    `After(v, q)` is the world once everything in `q` has run. Executing the
    head of the queue does not change it, so an invariant stated on it holds
    in the middle of a drain as well as after it. The commands whose execution
    re-enters the engine or ends the run are only collected, in `pivots`. */
module Effects {
  import opened Types
  import opened Transition

  datatype Effects = Effects(
    timers: set<TimerId>,               // running, in the registry
    scheduled: Option<Instant>,         // the alarm the planner remembers
    live: bool,                         // an alarm was written since the last CancelWake
    stages: Stages,                     // the last ReplaceIdleStages
    dimmed: bool,                       // the last Dim/Undim was a Dim
    screenOff: bool,                    // the last Screen was off
    lastTo: State,                      // `to` of the last StateChange broadcast
    chained: bool,                      // every StateChange so far started where the last one ended
    answered: multiset<RequestId>,      // replies sent
    pivots: seq<Command>)               // commands still to be executed that are more than an effect

  predicate IsPivot(c: Command) {
    c.GoToSleep? || c.PowerOff? || c.ScheduleWake? || c.Reload? || c.Shutdown?
  }

  function Apply(v: Effects, c: Command): Effects {
    match c
    case Dim(_) => v.(dimmed := true)
    case Undim => v.(dimmed := false)
    case Screen(on) => v.(screenOff := !on)
    case ReplaceIdleStages(s) => v.(stages := s)
    case CancelWake => v.(scheduled := None, live := false)
    case StartTimer(id, _) => v.(timers := v.timers + {id})
    case CancelTimer(id) => v.(timers := v.timers - {id})
    case Reply(id, _) => v.(answered := v.answered + multiset{id})
    case Broadcast(StateChange(from, to)) => v.(lastTo := to, chained := v.chained && from == v.lastTo)
    case Broadcast(_) | ApplyMode(_) | RunHook(_) => v
    case GoToSleep(_, _) | PowerOff | ScheduleWake(_) | Reload(_) | Shutdown => v.(pivots := v.pivots + [c])
  }

  function After(v: Effects, q: seq<Command>): Effects
    decreases |q|
  {
    if q == [] then v else After(Apply(v, q[0]), q[1..])
  }

  lemma {:induction false} AfterConcat(v: Effects, a: seq<Command>, b: seq<Command>)
    ensures After(v, a + b) == After(After(v, a), b)
    decreases |a|
  {
    if a == [] {
      assert a + b == b;
    } else {
      assert (a + b)[1..] == a[1..] + b;
      AfterConcat(Apply(v, a[0]), a[1..], b);
    }
  }

  lemma AfterOne(v: Effects, c: Command)
    ensures After(v, [c]) == Apply(v, c)
  {
    assert [c][1..] == [];
  }

  lemma AfterNone(v: Effects)
    ensures After(v, []) == v
  {
  }

  lemma AfterLast(v: Effects, q: seq<Command>, c: Command)
    ensures After(v, q + [c]) == Apply(After(v, q), c)
  {
    AfterConcat(v, q, [c]);
    AfterOne(After(v, q), c);
  }

  // ------------------------------------------------- shifting the start

  /** `u` differs from `v` only in the alarm, the replies and the pivots; then
      so do they after `c`, which adds the same to both. */
  ghost predicate Parallel(v: Effects, u: Effects, c: Command) {
    Apply(u, c) == Apply(v, c).(
      scheduled := if c == CancelWake then None else u.scheduled,
      live := u.live && c != CancelWake,
      answered := u.answered + (if c.Reply? then multiset{c.id} else multiset{}),
      pivots := u.pivots + (if IsPivot(c) then [c] else []))
  }

  ghost predicate Beside(v: Effects, u: Effects) {
    u == v.(scheduled := u.scheduled, live := u.live, answered := u.answered, pivots := u.pivots)
  }

  lemma ParallelPivots(v: Effects, u: Effects, c: Command)
    requires Beside(v, u) && IsPivot(c)
    ensures Parallel(v, u, c)
  {
    assert Apply(u, c) == u.(pivots := u.pivots + [c]);
    assert Apply(v, c) == v.(pivots := v.pivots + [c]);
    hide Apply;
  }

  lemma ParallelPanel(v: Effects, u: Effects, c: Command)
    requires Beside(v, u)
    requires c.Dim? || c.Undim? || c.Screen? || c.ReplaceIdleStages? || c.ApplyMode? || c.RunHook?
    ensures Parallel(v, u, c)
  {
    assert u.pivots + [] == u.pivots;
  }

  lemma ParallelTimers(v: Effects, u: Effects, c: Command)
    requires Beside(v, u)
    requires c.CancelWake? || c.StartTimer? || c.CancelTimer?
    ensures Parallel(v, u, c)
  {
    assert u.pivots + [] == u.pivots;
  }

  lemma ParallelWords(v: Effects, u: Effects, c: Command)
    requires Beside(v, u)
    requires c.Reply? || c.Broadcast?
    ensures Parallel(v, u, c)
  {
    assert u.pivots + [] == u.pivots;
  }

  lemma ParallelApply(v: Effects, u: Effects, c: Command)
    requires Beside(v, u)
    ensures Parallel(v, u, c)
  {
    hide Parallel, Beside;
    if IsPivot(c) {
      ParallelPivots(v, u, c);
    } else if c.CancelWake? || c.StartTimer? || c.CancelTimer? {
      ParallelTimers(v, u, c);
    } else if c.Reply? || c.Broadcast? {
      ParallelWords(v, u, c);
    } else {
      ParallelPanel(v, u, c);
    }
  }

  lemma ApplyKeepsPrefix(v: Effects, p: seq<Command>, c: Command)
    ensures Apply(v.(pivots := p + v.pivots), c) == Apply(v, c).(pivots := p + Apply(v, c).pivots)
  {
    hide Apply;
    ParallelApply(v, v, c);
    ParallelApply(v, v.(pivots := p + v.pivots), c);
    assert (p + v.pivots) + [c] == p + (v.pivots + [c]);
  }

  /** Pivots that are already waiting stay in front, and change nothing else. */
  lemma {:induction false} PivotsInFront(v: Effects, p: seq<Command>, q: seq<Command>)
    ensures After(v.(pivots := p + v.pivots), q)
         == After(v, q).(pivots := p + After(v, q).pivots)
    decreases |q|
  {
    if q != [] {
      hide Apply;
      ApplyKeepsPrefix(v, p, q[0]);
      PivotsInFront(Apply(v, q[0]), p, q[1..]);
    }
  }

  lemma ApplyKeepsAlarm(v: Effects, alarm: Option<Instant>, live: bool, c: Command)
    ensures Apply(v.(scheduled := alarm, live := live), c)
         == if c == CancelWake then Apply(v, c) else Apply(v, c).(scheduled := alarm, live := live)
    ensures Apply(v, c).scheduled == if c == CancelWake then None else v.scheduled
    ensures Apply(v, c).live == (v.live && c != CancelWake)
  {
    hide Apply;
    ParallelApply(v, v, c);
    ParallelApply(v, v.(scheduled := alarm, live := live), c);
  }

  /** A planner's alarm survives a queue exactly if no CancelWake is in it. */
  lemma {:induction false} AlarmAfter(v: Effects, alarm: Option<Instant>, live: bool, q: seq<Command>)
    ensures After(v.(scheduled := alarm, live := live), q)
         == if CancelWake in q then After(v, q) else After(v, q).(scheduled := alarm, live := live)
    ensures After(v, q).scheduled == if CancelWake in q then None else v.scheduled
    ensures After(v, q).live == (v.live && CancelWake !in q)
    decreases |q|
  {
    if q != [] {
      hide Apply;
      assert CancelWake in q <==> q[0] == CancelWake || CancelWake in q[1..];
      ApplyKeepsAlarm(v, alarm, live, q[0]);
      AlarmAfter(Apply(v, q[0]), alarm, live, q[1..]);
    }
  }

  lemma ApplyKeepsAnswered(v: Effects, m: multiset<RequestId>, c: Command)
    ensures Apply(v.(answered := v.answered + m), c) == Apply(v, c).(answered := Apply(v, c).answered + m)
  {
    hide Apply;
    ParallelApply(v, v, c);
    ParallelApply(v, v.(answered := v.answered + m), c);
    var id := if c.Reply? then multiset{c.id} else multiset{};
    assert v.answered + m + id == v.answered + id + m;
  }

  /** A reply that is sent at once counts the same as one still in the queue. */
  lemma {:induction false} AnsweredAfter(v: Effects, m: multiset<RequestId>, q: seq<Command>)
    ensures After(v.(answered := v.answered + m), q) == After(v, q).(answered := After(v, q).answered + m)
    decreases |q|
  {
    if q != [] {
      hide Apply;
      ApplyKeepsAnswered(v, m, q[0]);
      AnsweredAfter(Apply(v, q[0]), m, q[1..]);
    }
  }

  lemma ApplyPivot(v: Effects, c: Command)
    ensures Apply(v, c).pivots == if IsPivot(c) then v.pivots + [c] else v.pivots
  {
  }

  lemma ApplyIsPivot(v: Effects, c: Command)
    requires IsPivot(c)
    ensures Apply(v, c) == v.(pivots := v.pivots + [c])
  {
  }

  /** `After` collects exactly the pivots of the queue. */
  lemma {:induction false} PivotsCollected(v: Effects, q: seq<Command>)
    ensures forall c :: c in After(v, q).pivots <==> c in v.pivots || (c in q && IsPivot(c))
    decreases |q|
  {
    if q != [] {
      hide Apply;
      ApplyPivot(v, q[0]);
      PivotsCollected(Apply(v, q[0]), q[1..]);
      assert forall c :: c in q <==> c == q[0] || c in q[1..];
    }
  }

  // -------------------------------------------- what the handlers send

  lemma ModeCommandsEffect(c: Core, v: Effects)
    ensures After(v, ModeCommands(c)) == v.(stages := WantedStages(c))
  {
    hide After, WantedStages;
    AfterLast(v, ApplyCommands(c), ReplaceIdleStages(WantedStages(c)));
    AfterNone(v);
    AfterOne(v, ApplyMode(c.mode.name));
  }

  lemma ModeChangedEffect(c: Core, v: Effects)
    ensures After(v, ModeChanged(c)) == v.(stages := WantedStages(c))
  {
    hide After, WantedStages, ModeCommands;
    AfterLast(v, ModeCommands(c), Broadcast(ModeChange(c.mode.name)));
    ModeCommandsEffect(c, v);
  }

  lemma ReapplyAutoModeEffect(c: Core, v: Effects)
    ensures After(v, ReapplyAutoMode(c).cmds)
         == if SelectAutoMode(c).1 then v.(stages := WantedStages(ReapplyAutoMode(c).core)) else v
  {
    hide WantedStages, SelectAutoMode, ModeChanged;
    ModeChangedEffect(ReapplyAutoMode(c).core, v);
  }

  lemma LeaveCycleEffect(c: Core, v: Effects)
    ensures After(v, LeaveCycle(c).cmds) == v.(scheduled := None, live := false,
              stages := WantedStages(LeaveCycle(c).core), dimmed := false, screenOff := false)
  {
    hide After, WantedStages, SelectAutoMode, ModeCommands;
    var (c', changed) := SelectAutoMode(c.(state := Active));
    var said := if changed then [Broadcast(ModeChange(c'.mode.name))] else [];
    var v1 := v.(scheduled := None, live := false);
    var v2 := v1.(stages := WantedStages(c'));
    ModeCommandsEffect(c', v1);
    assert After(v, [CancelWake] + ModeCommands(c')) == v2 by {
      AfterConcat(v, [CancelWake], ModeCommands(c'));
      AfterOne(v, CancelWake);
    }
    assert After(v2, said) == v2 by {
      AfterNone(v2);
      AfterOne(v2, Broadcast(ModeChange(c'.mode.name)));
    }
    AfterConcat(v, [CancelWake] + ModeCommands(c'), said);
    AfterLast(v, [CancelWake] + ModeCommands(c') + said, Undim);
    AfterLast(v, [CancelWake] + ModeCommands(c') + said + [Undim], Screen(true));
  }

  lemma PowerIsBackEffect(c: Core, v: Effects)
    ensures PowerIsBack(c).core == LeaveCycle(c).core
    ensures After(v, PowerIsBack(c).cmds) == v.(scheduled := None, live := false,
              stages := WantedStages(LeaveCycle(c).core), dimmed := false, screenOff := false)
  {
    hide After, WantedStages, LeaveCycle;
    LeaveCycleEffect(c, v);
    if c.config.server.resumeHook.Some? {
      var hook := RunHook(c.config.server.resumeHook.value);
      AfterConcat(v, [hook], LeaveCycle(c).cmds);
      AfterOne(v, hook);
    } else {
      assert [] + LeaveCycle(c).cmds == LeaveCycle(c).cmds;
    }
  }

  lemma CancelPendingSleepEffect(c: Core, v: Effects)
    ensures After(v, CancelPendingSleep(c).cmds)
         == v.(timers := if c.pendingSleep then v.timers - {SleepRetry} else v.timers)
  {
    hide After;
    AfterNone(v);
    AfterOne(v, CancelTimer(SleepRetry));
  }

  lemma CycleFailureEffect(c: Core, v: Effects)
    ensures After(v, CycleFailure(c).cmds)
         == if c.sleepFailures + 1 >= MAX_SLEEP_FAILURES
            then v.(scheduled := None, live := false, stages := WantedStages(CycleFailure(c).core),
                    dimmed := false, screenOff := false)
            else v.(timers := v.timers + {AwakeWindow})
  {
    hide After, WantedStages, LeaveCycle;
    AfterOne(v, StartTimer(AwakeWindow, c.config.server.awakeWindow));
    LeaveCycleEffect(c.(sleepFailures := c.sleepFailures + 1), v);
  }

  lemma CriticalIsPivot(c: Core)
    ensures CriticalCommand(c).GoToSleep? || CriticalCommand(c).PowerOff?
  {
  }

  lemma CriticalEffect(c: Core, v: Effects)
    ensures After(v, Critically(c))
         == v.(pivots := if BatteryCritical(c) then v.pivots + [CriticalCommand(c)] else v.pivots)
  {
    hide After, BatteryCritical, CriticalCommand;
    if BatteryCritical(c) {
      AfterConcat(v, [Broadcast(PhaseChange(Critical))], [CriticalCommand(c)]);
      AfterOne(v, Broadcast(PhaseChange(Critical)));
      AfterOne(v, CriticalCommand(c));
      assert Apply(v, CriticalCommand(c)) == v.(pivots := v.pivots + [CriticalCommand(c)]) by {
        CriticalIsPivot(c);
      }
    } else {
      AfterNone(v);
    }
  }

  lemma CheckPowerEffect(c: Core, v: Effects)
    ensures After(v, CheckPower(c).cmds)
         == if c.ac
            then v.(scheduled := None, live := false, stages := WantedStages(LeaveCycle(c).core),
                    dimmed := false, screenOff := false)
            else v.(timers := v.timers + {AwakeWindow},
                    pivots := if BatteryCritical(c) then v.pivots + [CriticalCommand(c)] else v.pivots)
  {
    hide After, WantedStages, LeaveCycle, PowerIsBack, CriticalCommand;
    PowerIsBackEffect(c, v);
    if !c.ac {
      CriticalEffect(c, v);
      AfterConcat(v, Critically(c), [StartTimer(AwakeWindow, c.config.server.awakeWindow)]);
      AfterOne(After(v, Critically(c)), StartTimer(AwakeWindow, c.config.server.awakeWindow));
    }
  }

  lemma EnterGraceEffect(c: Core, delay: Duration, v: Effects)
    ensures After(v, EnterGrace(c, delay).cmds)
         == v.(timers := (if c.pendingSleep then v.timers - {SleepRetry} else v.timers) + {GraceTimer})
  {
    hide After, CancelPendingSleep;
    var c' := c.(state := LongSleep(Grace), sleepFailures := 0, interrupted := false);
    CancelPendingSleepEffect(c', v);
    AfterLast(v, CancelPendingSleep(c').cmds, StartTimer(GraceTimer, delay));
  }

  lemma ArmSleepRetryEffect(c: Core, v: Effects)
    ensures After(v, ArmSleepRetry(c).cmds)
         == if c.config.sleep.retry == 0 then v else v.(timers := v.timers + {SleepRetry})
  {
    hide After;
    AfterNone(v);
    AfterOne(v, StartTimer(SleepRetry, c.config.sleep.retry));
  }

  lemma TrySleepEffect(c: Core, force: bool, armRetry: bool, v: Effects)
    ensures After(v, TrySleep(c, force, armRetry).cmds)
         == if !force && Blocked(c)
            then (if armRetry && c.config.sleep.retry != 0 then v.(timers := v.timers + {SleepRetry}) else v)
            else v.(pivots := v.pivots + [GoToSleep(c.config.sleep.how, force)])
  {
    hide After, Blocked, ArmSleepRetry;
    ArmSleepRetryEffect(c, v);
    AfterNone(v);
    AfterOne(v, GoToSleep(c.config.sleep.how, force));
  }

  lemma ArmEffect(c: Core, first: bool, v: Effects)
    ensures After(v, Arm(c, first).cmds)
         == v.(stages := if first then NO_STAGES else v.stages,
               pivots := v.pivots + [ScheduleWake(c.config.server.checkInterval)])
  {
    hide After;
    var off := if first then [ReplaceIdleStages(NO_STAGES)] else [];
    AfterLast(v, off, ScheduleWake(c.config.server.checkInterval));
    AfterNone(v);
    AfterOne(v, ReplaceIdleStages(NO_STAGES));
  }

  lemma LightsThenShutdown(v: Effects)
    ensures After(v, [Undim] + [Screen(true)] + [Shutdown])
         == v.(dimmed := false, screenOff := false, pivots := v.pivots + [Shutdown])
  {
    hide After;
    AfterLast(v, [Undim] + [Screen(true)], Shutdown);
    AfterLast(v, [Undim], Screen(true));
    AfterOne(v, Undim);
  }

  lemma ShutdownEffect(c: Core, v: Effects)
    ensures var v' := After(v, OnShutdown(c).cmds);
            v' == v.(scheduled := v'.scheduled, live := v'.live, dimmed := false, screenOff := false,
                     pivots := v.pivots + [Shutdown])
            && (if c.state.LongSleep? then v'.scheduled == None && !v'.live
                else v'.scheduled == v.scheduled && v'.live == v.live)
  {
    hide After;
    var last := [Undim] + [Screen(true)] + [Shutdown];
    if c.state.LongSleep? {
      var v1 := v.(scheduled := None, live := false);
      assert OnShutdown(c).cmds == [CancelWake] + last;
      AfterConcat(v, [CancelWake], last);
      AfterOne(v, CancelWake);
      LightsThenShutdown(v1);
    } else {
      assert OnShutdown(c).cmds == last;
      LightsThenShutdown(v);
    }
  }

  lemma AnnounceEffect(from: State, c: Core, v: Effects)
    ensures After(v, Announce(from, c))
         == if c.state == from then v else v.(lastTo := c.state, chained := v.chained && from == v.lastTo)
  {
    hide After;
    var change := Broadcast(StateChange(from, c.state));
    var phase := Broadcast(PhaseChange(ServerPhase(c)));
    AfterNone(v);
    AfterConcat(v, [change], if from.LongSleep? || c.state.LongSleep? then [phase] else []);
    AfterOne(v, change);
    AfterNone(Apply(v, change));
    AfterOne(Apply(v, change), phase);
  }
}
