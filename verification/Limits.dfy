/** Where the code does less than its comments and documents say: for each
    place a way there, and over all runs exactly when. */
module Limits {
  import opened Types
  import opened Transition
  import opened Effects
  import opened Invariants
  import opened Discipline
  import opened Choices
  import opened Outcomes
  import opened World
  import opened Safety
  import opened Turns
  import opened Histories
  import opened Runs
  import opened Wake

  // ------------------------------------------- a dark panel after Grace

  /** Dimmed, then AC lost, then AC back: `Active`, and the panel still dimmed.
      (Runs.StrandedByAMove and Runs.PanelRestored say this is the only way.) */
  lemma GraceLeavesDimmed(c: Core, v: Effects)
    requires c.state == Active && c.ac && !IdleInhibited(c) && c.config.server.enabled && c.config.server.trigger == AcLost
    ensures var o1 := Handle(c, Idle(DimStage));
            var o2 := Handle(o1.core, AcChanged(false));
            var o3 := Handle(o2.core, AcChanged(true));
            && o1.core.state == Dimmed && o2.core.state == LongSleep(Grace) && o3.core.state == Active
            && After(After(After(v, o1.cmds), o2.cmds), o3.cmds).dimmed
  {
    hide After;
    var o1 := Handle(c, Idle(DimStage));
    DimFirst(c, v);
    LightsUntouched(o1.core, false, After(v, o1.cmds));
    var o2 := Handle(o1.core, AcChanged(false));
    LightsUntouched(o2.core, true, After(After(v, o1.cmds), o2.cmds));
  }

  lemma DimFirst(c: Core, v: Effects)
    requires c.state == Active && !IdleInhibited(c)
    ensures var o := Handle(c, Idle(DimStage)); o.core == c.(state := Dimmed) && After(v, o.cmds).dimmed
  {
    hide After;
    assert Handle(c, Idle(DimStage)).cmds == [Dim(c.config.dimPercent)] + [Broadcast(StateChange(Active, Dimmed))];
    AfterConcat(v, [Dim(c.config.dimPercent)], [Broadcast(StateChange(Active, Dimmed))]);
    AfterOne(v, Dim(c.config.dimPercent));
    AfterOne(Apply(v, Dim(c.config.dimPercent)), Broadcast(StateChange(Active, Dimmed)));
  }

  /** Outside `Checking` a change of AC sends nothing to the panel. */
  lemma LightsUntouched(c: Core, ac: bool, v: Effects)
    requires c.state != LongSleep(Checking)
    ensures After(v, Handle(c, AcChanged(ac)).cmds).dimmed == v.dimmed
    ensures After(v, Handle(c, AcChanged(ac)).cmds).screenOff == v.screenOff
  {
    hide ReapplyAutoMode, EnterGrace, Announce, After;
    var c' := c.(ac := ac);
    ReapplyUnlit(c');
    ReapplyUnlit(c'.(state := Active));
    EnterGraceUnlit(ReapplyAutoMode(c').core, c.config.server.gracePeriod);
    AnnounceUnlit(c.state, Handle(c, AcChanged(ac)).core);
    UnlitChangesNothing(v, Handle(c, AcChanged(ac)).cmds);
  }

  // ------------------------------------------------------- leftover timers

  /** The phases that wait for this timer of the cycle. */
  predicate WaitsFor(s: State, id: TimerId) {
    if id == GraceTimer then s == LongSleep(Grace) else s == LongSleep(Armed) || s == LongSleep(Checking)
  }

  /** Taking a timer that is left over from a cycle changes nothing in the
      daemon but that the timer is gone, exactly outside the phases that wait
      for it. */
  lemma LeftoverFires(w: World, id: TimerId)
    requires Drained(w) && CycleTimer(id) && id in w.fx.timers
    ensures var w' := Receive(w, TimerDue(id));
            w'.queue == [] && w' == w.(fx := w.fx.(timers := w.fx.timers - {id}), armedAt := None, count := w'.count)
            <==> !WaitsFor(w.core.state, id)
  {
    hide CountFailures;
    if WaitsFor(w.core.state, id) {
      hide Handle;
      WaitedForSends(w.core, id);
    }
  }

  lemma WaitedForSends(c: Core, id: TimerId)
    requires CycleTimer(id) && WaitsFor(c.state, id)
    ensures Handle(c, TimerFired(id)).cmds != []
  {
    hide LeaveCycle, Critically;
    if id == AwakeWindow && c.ac {
      assert LeaveCycle(c).cmds != [] by { LeavingSends(c); }
    }
  }

  /** One event, from a drained daemon to the next drained one. */
  ghost predicate OneDrain(ws: seq<World>, ms: seq<Move>, j: nat, k: nat)
    requires |ws| == |ms| + 1
  {
    && j < k < |ws| && Drained(ws[j]) && Drained(ws[k]) && ms[j].Take? && Fed(ws[j], ms[j]).Some?
    && forall i :: j < i < k ==> ws[i].queue != []
  }

  lemma {:induction false} AlongTheDrain(b: Boot, ws: seq<World>, ms: seq<Move>, j: nat, k: nat, i: nat, id: TimerId)
    requires IsRun(b, ws, ms) && OneDrain(ws, ms, j, k) && j < i <= k && CycleTimer(id) && ws[j].core.state.LongSleep?
    ensures var e := Fed(ws[j], ms[j]).value;
            OnItsWay(ws[i], id, id in ws[j].fx.timers && e != TimerFired(id) && !TakesBack(ws[j].core, e, id))
  {
    hide Inv, Perform, Legal, Fed, TakesBack, OnItsWay;
    RunKeepsInv(b, ws, ms, i - 1);
    assert Legal(ws[i - 1], ms[i - 1]) && ws[i] == Perform(ws[i - 1], ms[i - 1]);
    if i == j + 1 {
      EventOnItsWay(ws[j], ms[j], id);
    } else {
      AlongTheDrain(b, ws, ms, j, k, i - 1, id);
      var e := Fed(ws[j], ms[j]).value;
      DrainOnItsWay(ws[i - 1], ms[i - 1], id,
                    id in ws[j].fx.timers && e != TimerFired(id) && !TakesBack(ws[j].core, e, id));
    }
  }

  /** A drain that begins in the cycle and ends outside it leaves the awake
      window, or the Grace timer, running exactly if it was running, is not what
      went off, and the event is not one of those that take it back. */
  lemma TimersOutliveTheCycle(b: Boot, ws: seq<World>, ms: seq<Move>, j: nat, k: nat, id: TimerId)
    requires IsRun(b, ws, ms) && OneDrain(ws, ms, j, k) && CycleTimer(id)
    requires ws[j].core.state.LongSleep? && !ws[k].core.state.LongSleep?
    ensures var e := Fed(ws[j], ms[j]).value;
            id in ws[k].fx.timers <==> id in ws[j].fx.timers && e != TimerFired(id) && !TakesBack(ws[j].core, e, id)
  {
    hide Inv, Fed, TakesBack, Virtual, Pursuing;
    AlongTheDrain(b, ws, ms, j, k, k, id);
    RunKeepsInv(b, ws, ms, k);
    DrainedReady(ws[k]);
  }

  /** One such drain: a suspend from outside while the window runs, then the
      user. */
  lemma WindowOutlivesTheCycle(c: Core, v: Effects)
    requires c.state == LongSleep(Checking) && !c.ac && AwakeWindow in v.timers
    ensures var o1 := Handle(c, GoingDown);
            var o2 := Handle(o1.core, ResumedByUser);
            o2.core.state == Active && AwakeWindow in After(After(v, o1.cmds), o2.cmds).timers
  {
    hide After, Handle, Starts;
    var o1 := Handle(c, GoingDown);
    QuietGoingDown(c);
    QuietResume(o1.core);
    TakesBackExactly(c, GoingDown, AwakeWindow);
    TakesBackExactly(o1.core, ResumedByUser, AwakeWindow);
    TimerAfter(v, o1.cmds, AwakeWindow);
    TimerAfter(After(v, o1.cmds), Handle(o1.core, ResumedByUser).cmds, AwakeWindow);
  }

  lemma QuietGoingDown(c: Core)
    requires c.state == LongSleep(Checking) && !c.ac
    ensures var o := Handle(c, GoingDown);
            o.core.state == LongSleep(Asleep) && !o.core.ac && !Starts(o.cmds, AwakeWindow)
  {
  }

  lemma QuietResume(c: Core)
    requires c.state == LongSleep(Asleep) && !c.ac
    ensures var o := Handle(c, ResumedByUser); o.core.state == Active && !Starts(o.cmds, AwakeWindow)
  {
    hide LeaveCycle, Announce;
    var d := c.(pendingSleep := false, interrupted := true);
    LeavesToActive(d);
    ModeCommandsAre(LeaveCycle(d).core);
    LeavingStarts(d);
    NoSleepAnnounced(c.state, Handle(c, ResumedByUser).core);
  }

  lemma LeavingStarts(c: Core)
    ensures !Starts(LeaveCycle(c).cmds, AwakeWindow)
  {
    hide SelectAutoMode, WantedStages;
  }

  // --------------------------------------- stages that stay on past Grace

  /** Past Grace the idle stages are off, except exactly since a suspend or a
      resume in Grace, in a mode with stages, and as long as nothing about
      stages has been sent. */
  lemma StagesOnExactly(b: Boot, ws: seq<World>, ms: seq<Move>, k: nat)
    requires IsRun(b, ws, ms) && k < |ws|
    ensures StagesOn(ws[k]) <==> Since(SkipsGrace, ResetsStages, ws, ms, k)
    ensures Drained(ws[k]) && ws[k].core.state.PastGrace() ==>
              (ws[k].fx.stages == NO_STAGES <==> !Since(SkipsGrace, ResetsStages, ws, ms, k))
  {
    hide Inv, StagesOn, SkipsGrace, ResetsStages, Perform, Legal, Since, Virtual;
    forall j | 0 <= j < k
      ensures StagesOn(ws[j + 1]) <==> SkipsGrace(ws[j], ms[j]) || (StagesOn(ws[j]) && !ResetsStages(ws[j], ms[j]))
    {
      RunKeepsInv(b, ws, ms, j);
      assert Legal(ws[j], ms[j]) && ws[j + 1] == Perform(ws[j], ms[j]);
      StagesTurn(ws[j], ms[j]);
    }
    StartsOff(b);
    SinceExactly(StagesOn, SkipsGrace, ResetsStages, ws, ms, k);
    if Drained(ws[k]) {
      RunKeepsInv(b, ws, ms, k);
      DrainedStages(ws[k]);
    }
  }

  lemma StartsOff(b: Boot)
    ensures !StagesOn(Start(b))
  {
    hide ModeCommands, StartCore, StartOut, After, CurrentStages;
    StartOutShape(b);
    StartCoreOk(b);
    StartEffect(b);
  }

  lemma DrainedStages(w: World)
    requires Inv(w) && Drained(w)
    ensures StagesOn(w) <==> w.core.state.PastGrace() && w.fx.stages != NO_STAGES
  {
    hide Inv, Virtual;
    DrainedReady(w);
  }

  /** Both ways past Grace without its timer leave the stages as they were. */
  lemma StagesStayOn(c: Core, v: Effects)
    requires c.state == LongSleep(Grace) && !c.ac
    ensures Handle(c, GoingDown).core.state == LongSleep(Asleep) && After(v, Handle(c, GoingDown).cmds).stages == v.stages
    ensures Handle(c, Resumed).core.state == LongSleep(Checking) && After(v, Handle(c, Resumed).cmds).stages == v.stages
  {
    hide After;
    GraceEndsSilently(c, GoingDown);
    GraceEndsSilently(c, Resumed);
    QuietStages(v, Handle(c, GoingDown).cmds);
    QuietStages(v, Handle(c, Resumed).cmds);
  }

  lemma QuietStages(v: Effects, q: seq<Command>)
    requires !SendsStages(q)
    ensures After(v, q).stages == v.stages
  {
    hide After;
    StagesAfter(v, q, NO_STAGES);
  }

  // ------------------------------------------------------ a wake never cleared

  /** An alarm has been written to `d` and it has not been emptied since. */
  ghost predicate ArmedSince(ws: seq<World>, ms: seq<Move>, k: nat, d: Device)
    requires k <= |ms| <= |ws|
  {
    Since((w, m) => Writes(w, m, d), (w, m) => Empties(w, m, d), ws, ms, k)
  }

  /** A reload has taken the handle away from an armed `d`, and it has not gone
      off nor come back since. */
  ghost predicate OrphanedSince(ws: seq<World>, ms: seq<Move>, k: nat, d: Device)
    requires k <= |ms| <= |ws|
  {
    Since((w, m) => Orphans(w, m, d), (w, m) => Adopts(w, m, d), ws, ms, k)
  }

  /** What the hardware holds: `d` is armed exactly since a write to it. */
  lemma AlarmExactly(b: Boot, ws: seq<World>, ms: seq<Move>, k: nat, d: Device)
    requires IsRun(b, ws, ms) && k < |ws|
    ensures d in ws[k].cells <==> ArmedSince(ws, ms, k, d)
  {
    hide Writes, Empties, Perform, Legal, Since;
    forall j | 0 <= j < k
      ensures d in ws[j + 1].cells <==> Writes(ws[j], ms[j], d) || (d in ws[j].cells && !Empties(ws[j], ms[j], d))
    {
      assert Legal(ws[j], ms[j]) && ws[j + 1] == Perform(ws[j], ms[j]);
      CellTurn(ws[j], ms[j], d);
    }
    StartsEmpty(b);
    SinceExactly((w: World) => d in w.cells, (w, m) => Writes(w, m, d), (w, m) => Empties(w, m, d), ws, ms, k);
  }

  lemma StartsEmpty(b: Boot)
    ensures Start(b).cells == map[] && !Start(b).missed
  {
    hide StartOut;
  }

  /** An armed device is out of the daemon's reach exactly since a reload took
      the handle away from it. */
  lemma OrphanExactly(b: Boot, ws: seq<World>, ms: seq<Move>, k: nat, d: Device)
    requires IsRun(b, ws, ms) && k < |ws|
    ensures Orphan(ws[k], d) <==> OrphanedSince(ws, ms, k, d)
  {
    hide Orphans, Adopts, Perform, Legal, Since;
    forall j | 0 <= j < k
      ensures Orphan(ws[j + 1], d) <==> Orphans(ws[j], ms[j], d) || (Orphan(ws[j], d) && !Adopts(ws[j], ms[j], d))
    {
      assert Legal(ws[j], ms[j]) && ws[j + 1] == Perform(ws[j], ms[j]);
      OrphanTurn(ws[j], ms[j], d);
    }
    StartsEmpty(b);
    SinceExactly((w: World) => Orphan(w, d), (w, m) => Orphans(w, m, d), (w, m) => Adopts(w, m, d), ws, ms, k);
  }

  /** A CancelWake executed at `j` fails on `d`: the write does, or a reload has
      taken the handle away. */
  ghost predicate FailsOn(ws: seq<World>, ms: seq<Move>, j: nat, d: Device)
    requires j < |ms| < |ws|
  {
    && ms[j].Drain? && ws[j].queue != [] && ws[j].queue[0] == CancelWake
    && ((d in ws[j].cells && ws[j].rtc == Some(d) && !ms[j].answer.clears)
        || OrphanedSince(ws, ms, j, d))
  }

  lemma FailsExactly(b: Boot, ws: seq<World>, ms: seq<Move>, j: nat, d: Device)
    requires IsRun(b, ws, ms) && j < |ms|
    ensures FailsOn(ws, ms, j, d) <==> LeavesBehind(ws[j], ms[j], d)
  {
    hide OrphanedSince;
    assert Legal(ws[j], ms[j]);
    OrphanExactly(b, ws, ms, j, d);
  }

  /** An alarm has been left behind exactly if some clear failed on a device. */
  lemma {:induction false} MissedExactly(b: Boot, ws: seq<World>, ms: seq<Move>, k: nat)
    requires IsRun(b, ws, ms) && k < |ws|
    ensures ws[k].missed <==> exists j, d :: 0 <= j < k && FailsOn(ws, ms, j, d)
  {
    hide Perform, Legal, FailsOn, LeavesBehind, Start;
    if k == 0 {
      StartsEmpty(b);
    } else {
      MissedExactly(b, ws, ms, k - 1);
      assert Legal(ws[k - 1], ms[k - 1]) && ws[k] == Perform(ws[k - 1], ms[k - 1]);
      MissedTurn(ws[k - 1], ms[k - 1]);
      var j := k - 1;
      forall d ensures FailsOn(ws, ms, j, d) <==> LeavesBehind(ws[j], ms[j], d) {
        FailsExactly(b, ws, ms, j, d);
      }
    }
  }

  /** A clear has left the alarm in `d` behind, and nothing has emptied `d`
      since. */
  ghost predicate LeftSince(ws: seq<World>, ms: seq<Move>, k: nat, d: Device)
    requires k <= |ms| <= |ws|
  {
    Since((w, m) => LeavesBehind(w, m, d), (w, m) => Empties(w, m, d), ws, ms, k)
  }

  lemma {:induction false} LeftAlong(b: Boot, ws: seq<World>, ms: seq<Move>, k: nat, d: Device)
    requires IsRun(b, ws, ms) && k < |ws|
    ensures LeftSince(ws, ms, k, d) ==> d in ws[k].cells
    ensures d in ws[k].cells ==> LeftSince(ws, ms, k, d) || ws[k].fx.live
  {
    hide Perform, Legal, Start, Since, Writes, Empties;
    if k == 0 {
      StartsEmpty(b);
      assert !LeftSince(ws, ms, 0, d) by { NotSinceStart((w, m) => LeavesBehind(w, m, d), (w, m) => Empties(w, m, d), ws, ms); }
    } else {
      var w, m := ws[k - 1], ms[k - 1];
      LeftAlong(b, ws, ms, k - 1, d);
      assert Legal(w, m) && ws[k] == Perform(w, m);
      SinceStep((w, m) => LeavesBehind(w, m, d), (w, m) => Empties(w, m, d), ws, ms, k - 1);
      CellTurn(w, m, d);
      LeavesOrEmpties(w, m, d);
      if !Cancels(m, w) && (w.fx.live || Writes(w, m, d)) {
        LiveTurn(w, m, d);
      }
    }
  }

  lemma NotSinceStart(begin: Mark, end: Mark, ws: seq<World>, ms: seq<Move>)
    requires |ms| <= |ws|
    ensures !Since(begin, end, ws, ms, 0)
  {
  }

  /** A CancelWake does one or the other to an armed device. */
  lemma LeavesOrEmpties(w: World, m: Move, d: Device)
    requires Legal(w, m)
    ensures LeavesBehind(w, m, d) ==> d in w.cells && !Empties(w, m, d)
    ensures Cancels(m, w) && d in w.cells && !Empties(w, m, d) ==> LeavesBehind(w, m, d)
    ensures Cancels(m, w) ==> !Writes(w, m, d)
  {
  }

  /** Outside the phases past Grace a drained daemon has an alarm in the hardware
      exactly since a clear left it there, at whatever time that was. */
  lemma AlarmLeftExactly(b: Boot, ws: seq<World>, ms: seq<Move>, k: nat, d: Device)
    requires IsRun(b, ws, ms) && k < |ws| && Drained(ws[k]) && !ws[k].core.state.PastGrace()
    ensures d in ws[k].cells <==> LeftSince(ws, ms, k, d)
  {
    hide Inv, LeftSince;
    LeftAlong(b, ws, ms, k, d);
    RunKeepsInv(b, ws, ms, k);
    DrainedReady(ws[k]);
  }

  /** A queue with nothing in it that re-enters the engine, and no handle. */
  lemma {:induction false} PlainDrain(w: World, answers: nat -> Answer, i: nat)
    requires !w.down && w.rtc.None? && forall c :: c in w.queue ==> !IsPivot(c)
    ensures var d := DrainAll(w, answers, i);
            && d.queue == [] && !d.down && d.core == w.core && d.rtc == w.rtc && d.asked == w.asked
            && d.cells == w.cells && d.missed == (w.missed || (CancelWake in w.queue && w.cells != map[]))
    decreases |w.queue|
  {
    if w.queue != [] {
      hide Apply, IsPivot;
      var w' := Execute(w, answers(i));
      PlainStep(w, answers(i));
      assert forall c :: c in w.queue <==> c == w.queue[0] || c in w.queue[1..];
      PlainDrain(w', answers, i + 1);
    }
  }

  lemma PlainStep(w: World, a: Answer)
    requires w.queue != [] && !IsPivot(w.queue[0]) && w.rtc.None?
    ensures var w' := Execute(w, a);
            && w'.queue == w.queue[1..] && w'.down == w.down && w'.core == w.core && w'.rtc == w.rtc && w'.asked == w.asked
            && w'.cells == w.cells && w'.missed == (w.missed || (w.queue[0] == CancelWake && w.cells != map[]))
  {
    hide Execute, IsPivot;
    EffectFrame(w, a);
    if w.queue[0] == CancelWake {
      ClearsNothing(w, a);
    }
  }

  lemma ClearsNothing(w: World, a: Answer)
    requires w.queue != [] && w.queue[0] == CancelWake && w.rtc.None?
    ensures Execute(w, a).cells == w.cells
  {
  }

  /** One way: in the cycle with an alarm armed, a reload turns `[server]` off;
      then a client ends the cycle. The daemon is in `Active`, remembers no
      alarm, and the alarm is still in the hardware. */
  lemma ReloadLeavesTheAlarm(w: World, a: Answer, config: Config, id: RequestId, first: nat -> Answer, last: nat -> Answer)
    requires Inv(w) && Drained(w) && w.core.state.PastGrace() && w.cells != map[] && id !in w.asked
    requires Load(a.parsed) == Some(config) && !config.server.enabled && w.core.config.server.enabled
    ensures var w1 := Receive(w, Signal(ReloadRequested));
            && w1.queue == [Reload(None)]
            && var w2 := DrainAll(Execute(w1, a), first, 0);
            && Possible(w2, Client(id, RequestLongSleep(true)))
            && var w3 := DrainAll(Receive(w2, Client(id, RequestLongSleep(true))), last, 0);
            && Drained(w3) && w3.core.state == Active && w3.missed && w3.cells == w.cells
  {
    hide Inv, Load, SetConfig, Execute, Receive, Handle, DrainAll;
    var w1 := Receive(w, Signal(ReloadRequested));
    ReloadAsked(w);
    var w2 := Execute(w1, a);
    ReloadTakesHandle(w1, a, config);
    ConfigPursuesNothing(w1.core, config);
    PlainDrain(w2, first, 0);
    var w3 := DrainAll(w2, first, 0);
    CancelAsked(w3, id);
    PlainDrain(Receive(w3, Client(id, RequestLongSleep(true))), last, 0);
  }

  lemma ReloadAsked(w: World)
    requires Drained(w)
    ensures var w1 := Receive(w, Signal(ReloadRequested));
            && w1.queue == [Reload(None)] && w1.core == w.core && w1.cells == w.cells && w1.asked == w.asked && !w1.down
  {
    hide Strands, CountFailures;
    assert Handle(w.core, ReloadRequested).cmds == [Reload(None)];
  }

  lemma ReloadTakesHandle(w: World, a: Answer, config: Config)
    requires w.queue == [Reload(None)] && !w.down && Load(a.parsed) == Some(config)
    requires !config.server.enabled && w.core.config.server.enabled
    ensures var w2 := Execute(w, a);
            && w2.queue == SetConfig(w.core, config).cmds && w2.core.state == w.core.state && w2.rtc == None
            && w2.cells == w.cells && w2.asked == w.asked && !w2.down
  {
    hide SetConfig, Load;
    SetConfigFrame(w.core, config);
  }

  lemma CancelAsked(w: World, id: RequestId)
    requires Drained(w) && w.core.state.PastGrace() && w.rtc.None? && id !in w.asked
    ensures var w' := Receive(w, Client(id, RequestLongSleep(true)));
            && w'.core.state == Active && w'.rtc == None && w'.cells == w.cells && !w'.down
            && CancelWake in w'.queue && (forall c :: c in w'.queue ==> !IsPivot(c))
  {
    hide Strands, CountFailures, CancelCycle;
    CancelSends(w.core, id);
    assert Receive(w, Client(id, RequestLongSleep(true))).queue == Handle(w.core, Ipc(id, RequestLongSleep(true))).cmds;
  }

  lemma CancelSends(c: Core, id: RequestId)
    requires c.state.LongSleep?
    ensures var o := CancelCycle(c, c.state.phase);
            o.core.state == Active && CancelWake in o.cmds && (forall cmd :: cmd in o.cmds ==> !IsPivot(cmd))
  {
    hide LeaveCycle;
    LeavesToActive(c.(interrupted := false));
    LeavingSends(c.(interrupted := false));
  }

  lemma LeavingSends(c: Core)
    ensures CancelWake in LeaveCycle(c).cmds && (forall cmd :: cmd in LeaveCycle(c).cmds ==> !IsPivot(cmd))
  {
    hide ModeCommands, SelectAutoMode;
    ModeCommandsAre(LeaveCycle(c).core);
    assert LeaveCycle(c).cmds[0] == CancelWake;
  }

  /** Something has emptied `d` after move `j`, and nothing has been written to
      it since. */
  ghost predicate EmptiedSince(ws: seq<World>, ms: seq<Move>, j: nat, k: nat, d: Device)
    requires j <= k <= |ms| <= |ws|
  {
    Since((w, m) => Empties(w, m, d), (w, m) => Writes(w, m, d), ws[j..], ms[j..], k - j)
  }

  lemma EmptiedExactly(b: Boot, ws: seq<World>, ms: seq<Move>, j: nat, k: nat, d: Device)
    requires IsRun(b, ws, ms) && j <= k < |ws| && d in ws[j].cells
    ensures d !in ws[k].cells <==> EmptiedSince(ws, ms, j, k, d)
  {
    hide Writes, Empties, Perform, Legal, Since;
    var us, ns := ws[j..], ms[j..];
    forall i | 0 <= i < k - j
      ensures d !in us[i + 1].cells <==> Empties(us[i], ns[i], d) || (d !in us[i].cells && !Writes(us[i], ns[i], d))
    {
      assert us[i] == ws[j + i] && ns[i] == ms[j + i] && us[i + 1] == ws[j + i + 1];
      assert Legal(ws[j + i], ms[j + i]) && ws[j + i + 1] == Perform(ws[j + i], ms[j + i]);
      CellTurn(us[i], ns[i], d);
      NotBoth(us[i], ns[i], d);
    }
    SinceExactly((w: World) => d !in w.cells, (w, m) => Empties(w, m, d), (w, m) => Writes(w, m, d), us, ns, k - j);
  }

  lemma NotBoth(w: World, m: Move, d: Device)
    ensures !(Empties(w, m, d) && Writes(w, m, d))
  {
  }

  /** A suspend handed to logind at `j` in the cycle relies on an alarm that is
      in the hardware then. When the machine goes down in answer, at `k`, that
      device will not wake it exactly if the alarm has gone off meanwhile, or
      been cleared, or cleared for another one that could not be written, and no
      later one was. */
  lemma AsleepWithAlarmExactly(b: Boot, ws: seq<World>, ms: seq<Move>, j: nat, k: nat)
    requires IsRun(b, ws, ms) && j < k < |ms| && ms[j].Drain? && ws[j].queue[0].GoToSleep? && !ws[j].queue[0].force
    requires ws[j].core.state.LongSleep? && !Since(Rings, Schedules, ws, ms, j)
    requires ms[k] == Take(GoesDown(true)) && ws[k].core.state.LongSleep?
    ensures ws[k + 1].core.state == LongSleep(Asleep)
    ensures ws[j].rtc.Some? && ws[j].fx.scheduled.Some?
    ensures ws[j].fx.scheduled.value >= SECOND ==>
              var d := ws[j].rtc.value;
              d in ws[j].cells && (d !in ws[k + 1].cells <==> EmptiedSince(ws, ms, j, k, d))
  {
    hide Inv, EmptiedSince, Since, Rings, Schedules, Blocked, BatteryCritical;
    assert Legal(ws[j], ms[j]);
    NeverSleepsUnarmed(b, ws, ms, j);
    if ws[j].fx.scheduled.value >= SECOND {
      EmptiedExactly(b, ws, ms, j, k, ws[j].rtc.value);
    }
    assert Legal(ws[k], ms[k]) && ws[k + 1] == Perform(ws[k], ms[k]);
    DownInCycle(ws[k], ms[k].input);
  }

  /** The user, while a request is open: one failed attempt, and the window
      runs. */
  lemma WindowWhileAsked(w: World, a: Answer)
    requires Inv(w) && Drained(w) && w.core.state == LongSleep(Armed) && w.inflight > 0
    requires w.core.sleepFailures + 1 < MAX_SLEEP_FAILURES
    ensures var w1 := Receive(w, Signal(Activity));
            && w1.queue != []
            && var w2 := Execute(w1, a);
            && Drained(w2) && w2.core == w.core.(sleepFailures := w.core.sleepFailures + 1) && AwakeWindow in w2.fx.timers
            && w2.inflight == w.inflight && w2.rtc == w.rtc && w2.cells == w.cells
  {
    hide Execute, Receive;
    FailureWhileAsked(w);
    WindowStarts(Receive(w, Signal(Activity)), a);
  }

  lemma FailureWhileAsked(w: World)
    requires Inv(w) && Drained(w) && w.core.state == LongSleep(Armed) && w.core.sleepFailures + 1 < MAX_SLEEP_FAILURES
    ensures var w1 := Receive(w, Signal(Activity));
            && w1.queue == [StartTimer(AwakeWindow, w.core.config.server.awakeWindow)]
            && w1.core == w.core.(sleepFailures := w.core.sleepFailures + 1) && !w1.down
            && w1.inflight == w.inflight && w1.rtc == w.rtc && w1.cells == w.cells
  {
    hide CountFailures, Strands, Inv;
    NoRetry(w);
    assert Handle(w.core, Activity).cmds == [StartTimer(AwakeWindow, w.core.config.server.awakeWindow)];
  }

  /** One way: a request is open, the window ends, the next wake clears the
      alarm and cannot be written, and then the request is granted. */
  lemma DownWithoutAlarm(w: World, d: Device, a: Answer, b: Answer)
    requires Drained(w) && w.core.state == LongSleep(Armed) && !w.core.ac && w.inflight > 0 && AwakeWindow in w.fx.timers
    requires w.core.sleepFailures + 1 < MAX_SLEEP_FAILURES && w.rtc == Some(d) && w.cells.Keys == {d} && a.writes == (true, false)
    requires EpochFor(a.now + w.core.config.server.checkInterval, a.setNow).Ok?
    requires EpochFor(a.now + w.core.config.server.checkInterval, a.setNow).value > 0
    ensures var w1 := Receive(w, TimerDue(AwakeWindow));
            && w1.queue != []
            && var w2 := Execute(w1, a);
            && w2.queue != []
            && var w3 := Execute(w2, b);
            && Drained(w3) && Possible(w3, GoesDown(true))
            && var w4 := Receive(w3, GoesDown(true));
            w4.core.state == LongSleep(Asleep) && w4.cells == map[]
  {
    hide Execute, Receive;
    var w1 := Receive(w, TimerDue(AwakeWindow));
    WindowEnds(w);
    var w2 := Execute(w1, a);
    WakeNotWritten(w1, d, a);
    var w3 := Execute(w2, b);
    WindowStarts(w2, b);
    DownInCycle(w3, GoesDown(true));
  }

  lemma WindowEnds(w: World)
    requires Drained(w) && w.core.state == LongSleep(Armed) && !w.core.ac && AwakeWindow in w.fx.timers
    ensures var w1 := Receive(w, TimerDue(AwakeWindow));
            && w1.queue == [ScheduleWake(w.core.config.server.checkInterval)] && w1.core == w.core && !w1.down
            && w1.inflight == w.inflight && w1.rtc == w.rtc && w1.cells == w.cells
  {
    hide CountFailures, Strands;
    assert Handle(w.core, TimerFired(AwakeWindow)).cmds == [ScheduleWake(w.core.config.server.checkInterval)];
  }

  lemma WakeNotWritten(w: World, d: Device, a: Answer)
    requires w.core.state == LongSleep(Armed) && w.core.sleepFailures + 1 < MAX_SLEEP_FAILURES && !w.down
    requires w.queue == [ScheduleWake(w.core.config.server.checkInterval)]
    requires w.rtc == Some(d) && w.cells.Keys == {d} && a.writes == (true, false)
    requires EpochFor(a.now + w.core.config.server.checkInterval, a.setNow).Ok?
    requires EpochFor(a.now + w.core.config.server.checkInterval, a.setNow).value > 0
    ensures var w2 := Execute(w, a);
            && w2.queue == [StartTimer(AwakeWindow, w.core.config.server.awakeWindow)] && w2.core.state == w.core.state
            && w2.inflight == w.inflight && w2.cells == map[] && !w2.down
  {
    hide CountFailures, LeaveCycle;
    assert ArmRtc(w.rtc, w.cells, a.now + w.core.config.server.checkInterval, a).1.Keys == {};
    assert Handle(w.core, WakeScheduled(false)).cmds == [StartTimer(AwakeWindow, w.core.config.server.awakeWindow)];
  }

  lemma WindowStarts(w: World, a: Answer)
    requires w.queue != [] && w.queue[1..] == [] && w.queue[0].StartTimer? && !w.down
    ensures var w' := Execute(w, a);
            && Drained(w') && w'.core == w.core && w'.inflight == w.inflight && w'.rtc == w.rtc && w'.cells == w.cells
            && w.queue[0].timer in w'.fx.timers
  {
  }

  lemma DownInCycle(w: World, i: Input)
    requires Possible(w, i) && i.GoesDown? && w.core.state.LongSleep?
    ensures Receive(w, i).core.state == LongSleep(Asleep) && Receive(w, i).cells == w.cells
  {
    hide CountFailures, Strands;
  }

  // ------------------------------------------------------- a mode that is gone

  /** The mode in effect is a manual one that the config does not have, exactly
      since a reload dropped its entry. */
  lemma DanglingExactly(b: Boot, ws: seq<World>, ms: seq<Move>, k: nat)
    requires IsRun(b, ws, ms) && k < |ws|
    ensures Dangling(ws[k].core) <==> Since(DropsMode, SettlesMode, ws, ms, k)
  {
    hide Inv, DropsMode, SettlesMode, Perform, Legal, Since, Dangling;
    forall j | 0 <= j < k
      ensures Dangling(ws[j + 1].core) <==> DropsMode(ws[j], ms[j]) || (Dangling(ws[j].core) && !SettlesMode(ws[j], ms[j]))
    {
      RunKeepsInv(b, ws, ms, j);
      assert Legal(ws[j], ms[j]) && ws[j + 1] == Perform(ws[j], ms[j]);
      ModeTurn(ws[j], ms[j]);
    }
    StartsSettled(b);
    SinceExactly((w: World) => Dangling(w.core), DropsMode, SettlesMode, ws, ms, k);
  }

  lemma StartsSettled(b: Boot)
    ensures !Dangling(Start(b).core)
  {
    hide ModeCommands, StartCore, StartOut;
    StartOutShape(b);
    StartCoreOk(b);
    SavedModeChecked(b);
  }

  lemma SavedModeChecked(b: Boot)
    ensures !Dangling(StartCore(b))
  {
    hide AutoModeName, ComputeLow;
  }

  /** Such a reload keeps the manual mode and asks for it by name; only its
      stages are lost. */
  lemma ManualModeOutlivesItsEntry(c: Core, config: Config)
    requires c.mode.Manual? && c.mode.name != ""
    ensures var o := SetConfig(c, config);
            && o.core.mode == c.mode && ApplyMode(c.mode.name) in o.cmds
            && (c.mode.name !in config.modes ==> CurrentStages(o.core) == NO_STAGES && ReplaceIdleStages(NO_STAGES) in o.cmds)
  {
    var o := SetConfig(c, config);
    assert o.cmds[0] == ApplyMode(c.mode.name) && o.cmds[1] == ReplaceIdleStages(WantedStages(o.core));
  }

  // ------------------------------------------------- a suspend nobody answers

  /** One way (Runs.StuckExactly has all of them): two requests to sleep, both
      taken, both refused with retries off. */
  lemma TwoRefusalsStrand(c: Core, id: RequestId, id': RequestId, list: seq<Inhibitor>)
    requires c.state.IsAwake() && !Blocked(c) && c.config.sleep.retry == 0 && !c.pendingSleep
    ensures var o1 := Handle(c, Ipc(id, RequestSleep(false)));
            var o2 := Handle(o1.core, Ipc(id', RequestSleep(false)));
            var o3 := Handle(o2.core, SleepBlocked(list));
            var o4 := Handle(o3.core, SleepBlocked(list));
            && o1.cmds[0].GoToSleep? && o2.cmds[0].GoToSleep? && o3.cmds == [] && o4.cmds == []
            && o4.core.state == Suspending && !o4.core.pendingSleep
  {
    hide Blocked;
    var o1 := Handle(c, Ipc(id, RequestSleep(false)));
    BlockedDepends(c, o1.core);
  }

  /** Another: a retry is pending, a reload turns retries off, and the retry
      comes due while something blocks. */
  lemma RetriesTurnedOffStrand(c: Core, config: Config)
    requires c.state == Suspending && c.pendingSleep && config.sleep.retry == 0 && Blocked(SetConfig(c, config).core)
    ensures var o := Handle(SetConfig(c, config).core, TimerFired(SleepRetry));
            o.core.state == Suspending && !o.core.pendingSleep && o.cmds == []
  {
    hide Blocked, ModeCommands, AutoModeName, ComputeLow;
    var d := SetConfig(c, config).core;
    BlockedDepends(d, d.(pendingSleep := false));
  }

  /** A retry asks logind again in whatever state the refusal went back to: here
      a request made while asleep is refused, and made again while asleep. */
  lemma RetryWhileAsleep(c: Core, id: RequestId, list: seq<Inhibitor>)
    requires c.state == Sleeping && !Blocked(c) && c.config.sleep.retry != 0
    ensures var o1 := Handle(c, Ipc(id, RequestSleep(false)));
            var o2 := Handle(o1.core, SleepBlocked(list));
            var o3 := Handle(o2.core, Inhibitors([]));
            var o4 := Handle(o3.core, TimerFired(SleepRetry));
            && o2.core.state == Sleeping && o2.core.pendingSleep
            && o3.core.state == Sleeping && o4.cmds[0] == GoToSleep(c.config.sleep.how, false)
  {
    hide Handle;
    var o1 := Handle(c, Ipc(id, RequestSleep(false)));
    AskedAsleep(c, id);
    RefusedAsleep(o1.core, list);
    var o2 := Handle(o1.core, SleepBlocked(list));
    RetriedAsleep(o2.core);
  }

  lemma AskedAsleep(c: Core, id: RequestId)
    requires c.state == Sleeping && !Blocked(c)
    ensures Handle(c, Ipc(id, RequestSleep(false))).core == c.(state := Suspending, suspendFrom := Sleeping, pendingSleep := false)
  {
    hide Blocked;
  }

  lemma RefusedAsleep(c: Core, list: seq<Inhibitor>)
    requires c.state == Suspending && c.suspendFrom == Sleeping && c.config.sleep.retry != 0
    ensures Handle(c, SleepBlocked(list)).core == c.(state := Sleeping, external := list, pendingSleep := true)
  {
  }

  lemma RetriedAsleep(c: Core)
    requires c.state == Sleeping && c.pendingSleep && !Blocked(c.(external := []))
    ensures var o1 := Handle(c, Inhibitors([]));
            && o1.core.state == Sleeping
            && Handle(o1.core, TimerFired(SleepRetry)).cmds[0] == GoToSleep(c.config.sleep.how, false)
  {
    hide Blocked;
    var d := Handle(c, Inhibitors([])).core;
    BlockedDepends(c.(external := []), d);
    BlockedDepends(d, d.(pendingSleep := false));
  }
}
