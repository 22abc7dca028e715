/** What holds in every run of the daemon, however its environment behaves, and
    where the code falls short of its documentation, the exact condition. */
module Runs {
  import opened Types
  import opened Transition
  import opened Effects
  import opened Invariants
  import opened Discipline
  import opened Agent
  import opened Supply
  import opened Wake
  import opened World
  import opened Safety
  import opened Turns
  import opened Histories
  import opened Outcomes
  import opened Sends
  import opened Fields

  lemma {:induction false} RunKeepsInv(b: Boot, ws: seq<World>, ms: seq<Move>, k: nat)
    requires IsRun(b, ws, ms) && k < |ws|
    ensures Inv(ws[k])
  {
    hide Inv, Execute, Receive, Start;
    if k == 0 {
      StartKeeps(b);
    } else {
      RunKeepsInv(b, ws, ms, k - 1);
      assert Legal(ws[k - 1], ms[k - 1]);
      match ms[k - 1]
      case Drain(a) => ExecuteKeeps(ws[k - 1], a);
      case Take(i) => ReceiveKeeps(ws[k - 1], i);
    }
  }

  // ------------------------------------------------------- the whole engine

  lemma InvInOrder(w: World)
    requires Inv(w) && !w.down
    ensures InOrder(w.core)
  {
    hide After, TableOk, TimersOk, ExpiriesOk, AlarmOk, StagesOk, PivotsOk, PanelOk, RestOk, CountOk, AutoModeOk;
  }

  /** Inside the cycle nobody has ended it yet. */
  lemma {:induction false} NotYetInterrupted(b: Boot, ws: seq<World>, ms: seq<Move>, k: nat)
    requires IsRun(b, ws, ms) && k < |ws| && ws[k].core.state.LongSleep?
    ensures !ws[k].core.interrupted
  {
    hide Inv, Perform, Legal, Start;
    if k == 0 {
      StartsUninterrupted(b);
    } else {
      RunKeepsInv(b, ws, ms, k - 1);
      var w, m := ws[k - 1], ms[k - 1];
      assert Legal(w, m) && ws[k] == Perform(w, m);
      if w.core.state.LongSleep? {
        NotYetInterrupted(b, ws, ms, k - 1);
      }
      InterruptedTurn(w, m);
    }
  }

  lemma StartsUninterrupted(b: Boot)
    ensures !Start(b).core.interrupted
  {
    hide ModeCommands;
  }

  lemma InterruptedTurn(w: World, m: Move)
    requires Inv(w) && Legal(w, m) && (w.core.state.LongSleep? ==> !w.core.interrupted)
    ensures var d := Perform(w, m).core; d.state.LongSleep? ==> !d.interrupted
  {
    hide Inv, Perform, Legal, Handle, SetConfig, Virtual, After, NextState, NextMode, AutoModeOk;
    NotDown(w, m);
    if Fed(w, m).Some? {
      FedTurn(w, m);
      InvInOrder(w);
      FieldsExactly(w.core, Fed(w, m).value);
      UsersEnd(w.core, Fed(w, m).value);
    } else if Loaded(w, m).Some? {
      LoadedTurn(w, m);
      SetConfigFrame(w.core, Loaded(w, m).value);
    } else {
      PlainTurn(w, m);
    }
  }

  /** Whatever the user ends is over, and the cycle begins with Grace. */
  lemma UsersEnd(c: Core, e: Event)
    requires NoRetryInCycle(c)
    ensures UserEnds(c, e) ==> NextState(c, e) == Active
    ensures !c.state.LongSleep? && NextState(c, e).LongSleep? ==> BeginsCycle(c, e)
  {
    hide Hindered, Holds, OutOfPower;
  }

  /** Every event of every run moves the engine's fields exactly as the table and
      `FieldsAre` say, and what comes to the end of the queue is exactly what is
      due. */
  lemma EngineExactly(b: Boot, ws: seq<World>, ms: seq<Move>, k: nat)
    requires IsRun(b, ws, ms) && k < |ms| && Fed(ws[k], ms[k]).Some?
    ensures var c, d, e := ws[k].core, ws[k + 1].core, Fed(ws[k], ms[k]).value;
            && d.state == NextState(c, e) && FieldsAre(c, e, d)
            && ws[k + 1].queue == (if ms[k].Drain? then ws[k].queue[1..] else ws[k].queue) + Sent(ws[k], ms[k])
            && forall cmd :: cmd in Sent(ws[k], ms[k]) <==> Due(c, e, d.state, d.mode, cmd)
  {
    hide Inv, Perform, Legal, Handle, Found, Due, NextState, AutoModeOk, NextMode;
    var w, m := ws[k], ms[k];
    RunKeepsInv(b, ws, ms, k);
    assert Legal(w, m) && ws[k + 1] == Perform(w, m);
    NotDown(w, m);
    if w.core.state.LongSleep? {
      NotYetInterrupted(b, ws, ms, k);
    }
    FedTurn(w, m);
    QueueTurn(w, m);
    InvInOrder(w);
    FieldsExactly(w.core, Fed(w, m).value);
    SentExactly(w.core, Fed(w, m).value);
  }

  // ---------------------------------------------------------- no dead state

  /** The daemon is in `Suspending` with nothing to wait for exactly since one
      of the moves that strand it there, and until one that frees it. */
  lemma StuckExactly(b: Boot, ws: seq<World>, ms: seq<Move>, k: nat)
    requires IsRun(b, ws, ms) && k < |ws|
    ensures Stuck(ws[k]) <==> Since(StrandsSuspend, FreesSuspend, ws, ms, k)
  {
    hide Inv, Stuck, StrandsSuspend, FreesSuspend, Perform, Legal;
    forall j | 0 <= j < k
      ensures Stuck(ws[j + 1]) <==> StrandsSuspend(ws[j], ms[j]) || (Stuck(ws[j]) && !FreesSuspend(ws[j], ms[j]))
    {
      RunKeepsInv(b, ws, ms, j);
      assert Legal(ws[j], ms[j]) && ws[j + 1] == Perform(ws[j], ms[j]);
      StuckTurn(ws[j], ms[j]);
    }
    StartsUnstuck(b);
    SinceExactly(Stuck, StrandsSuspend, FreesSuspend, ws, ms, k);
  }

  lemma StartsUnstuck(b: Boot)
    ensures !Stuck(Start(b))
  {
    hide ModeCommands, StartCore, StartOut, Virtual;
    StartOutShape(b);
    StartCoreOk(b);
  }

  /** Whenever the queue is drained, every state that waits has something that
      will end the wait: a running timer, or a request logind still has. For
      `Suspending` the exception is the one above. */
  lemma NoDeadState(b: Boot, ws: seq<World>, ms: seq<Move>, k: nat)
    requires IsRun(b, ws, ms) && k < |ws| && Drained(ws[k])
    ensures var w := ws[k];
            && (w.core.state == LongSleep(Grace) ==> GraceTimer in w.fx.timers)
            && (w.core.state == LongSleep(Checking) ==> AwakeWindow in w.fx.timers)
            && (w.core.state == LongSleep(Armed) ==> AwakeWindow in w.fx.timers || w.inflight > 0)
            && (w.core.state == Suspending ==>
                  w.inflight > 0 || w.core.pendingSleep || Since(StrandsSuspend, FreesSuspend, ws, ms, k))
            && (w.core.pendingSleep ==> SleepRetry in w.fx.timers)
  {
    hide Since, StrandsSuspend, FreesSuspend;
    RunKeepsInv(b, ws, ms, k);
    DrainedReady(ws[k]);
    StuckExactly(b, ws, ms, k);
  }

  // ------------------------------------------------------------ never unarmed

  /** Whatever suspend is about to be handed to logind inside the cycle: if it is
      not forced, an alarm was armed in this very drain, AC is off and nothing
      blocks; if it is, the battery is critical and logind really hibernates. */
  lemma NeverSleepsUnarmed(b: Boot, ws: seq<World>, ms: seq<Move>, k: nat)
    requires IsRun(b, ws, ms) && k < |ws| && !ws[k].down
    requires ws[k].queue != [] && ws[k].queue[0].GoToSleep? && ws[k].core.state.LongSleep?
    ensures var w := ws[k];
            var how, force := w.queue[0].how, w.queue[0].force;
            && (!force ==>
                  && w.core.state == LongSleep(Armed) && !w.core.ac && !Hindered(w.core)
                  && w.armedAt.Some? && w.fx.scheduled == w.armedAt && w.fx.live
                  && (AlarmSet(w) || Since(Rings, Schedules, ws, ms, k)))
            && (force ==>
                  && w.core.state == LongSleep(Checking) && OutOfPower(w.core)
                  && w.logind == Some(true) && Usable(how, w.logind.value) == Hibernate)
  {
    hide Since, Rings, Schedules, AlarmSet;
    var w := ws[k];
    RunKeepsInv(b, ws, ms, k);
    HeadPivot(w);
    AlarmAfter(w.fx, w.fx.scheduled, w.fx.live, w.queue);
    if !w.queue[0].force {
      assert AboutToSleep(w) by { HeadIsAbout(w); }
      AlarmStands(b, ws, ms, k);
    }
  }

  lemma HeadIsAbout(w: World)
    requires w.queue != [] && w.queue[0].GoToSleep? && !w.queue[0].force && w.core.state.LongSleep?
    requires Virtual(w).pivots == [w.queue[0]]
    ensures AboutToSleep(w)
  {
    hide Virtual;
    assert GoToSleep(w.queue[0].how, false) in Virtual(w).pivots;
  }

  /** Until the suspend that relies on it is executed, the alarm is in the
      hardware, unless it has gone off. */
  lemma {:induction false} AlarmStands(b: Boot, ws: seq<World>, ms: seq<Move>, k: nat)
    requires IsRun(b, ws, ms) && k < |ws| && AboutToSleep(ws[k])
    ensures AlarmSet(ws[k]) || Since(Rings, Schedules, ws, ms, k)
  {
    hide Inv, AboutToSleep, AlarmSet, Rings, Schedules, Perform, Legal, Start, Since;
    if k == 0 {
      StartsAwake(b);
    } else {
      RunKeepsInv(b, ws, ms, k - 1);
      assert Legal(ws[k - 1], ms[k - 1]) && ws[k] == Perform(ws[k - 1], ms[k - 1]);
      AlarmTurn(ws[k - 1], ms[k - 1]);
      SinceStep(Rings, Schedules, ws, ms, k - 1);
      if !Schedules(ws[k - 1], ms[k - 1]) {
        AlarmStands(b, ws, ms, k - 1);
      }
    }
  }

  lemma StartsAwake(b: Boot)
    ensures !AboutToSleep(Start(b))
  {
    hide ModeCommands, StartCore, StartOut, After;
    StartOutShape(b);
    StartEffect(b);
  }

  /** The same for the other critical action. */
  lemma PowerOffOnlyWhenCritical(b: Boot, ws: seq<World>, ms: seq<Move>, k: nat)
    requires IsRun(b, ws, ms) && k < |ws| && !ws[k].down && ws[k].queue != [] && ws[k].queue[0] == PowerOff
    ensures var c := ws[k].core;
            && c.state == LongSleep(Checking) && !c.ac
            && c.battery.Some? && c.battery.value <= c.config.server.criticalPercent
            && !(c.config.server.criticalAction == CriticalHibernate && c.hibernateAvailable)
  {
    RunKeepsInv(b, ws, ms, k);
    HeadPivot(ws[k]);
  }

  /** A sleep inhibitor has been granted under this id, and neither been taken
      back nor run out. */
  ghost predicate GrantedSince(ws: seq<World>, ms: seq<Move>, k: nat, id: nat)
    requires k <= |ms| <= |ws|
  {
    Since((w, m) => Grants(w, m, id), (w, m) => Revokes(w, m, id), ws, ms, k)
  }

  /** The table holds exactly these. */
  lemma GrantedExactly(b: Boot, ws: seq<World>, ms: seq<Move>, k: nat, id: nat)
    requires IsRun(b, ws, ms) && k < |ws|
    ensures InhibitsSleep(ws[k].core.inhibits, id) <==> GrantedSince(ws, ms, k, id)
  {
    hide Inv, Grants, Revokes, Perform, Legal, Since, InhibitsSleep;
    forall j | 0 <= j < k
      ensures InhibitsSleep(ws[j + 1].core.inhibits, id) <==>
                Grants(ws[j], ms[j], id) || (InhibitsSleep(ws[j].core.inhibits, id) && !Revokes(ws[j], ms[j], id))
    {
      RunKeepsInv(b, ws, ms, j);
      assert Legal(ws[j], ms[j]) && ws[j + 1] == Perform(ws[j], ms[j]);
      InhibitTurn(ws[j], ms[j], id);
    }
    NothingGrantedYet(b, id);
    SinceExactly((w: World) => InhibitsSleep(w.core.inhibits, id),
                 (w, m) => Grants(w, m, id), (w, m) => Revokes(w, m, id), ws, ms, k);
  }

  lemma NothingGrantedYet(b: Boot, id: nat)
    ensures !InhibitsSleep(Start(b).core.inhibits, id)
  {
    hide ModeCommands, StartCore, StartOut;
    StartOutShape(b);
    StartCoreOk(b);
  }

  /** A list from logind: of its own accord, or with a refusal. */
  function Listed(m: Move): Option<seq<Inhibitor>> {
    match m
    case Take(Signal(Inhibitors(list))) => Some(list)
    case Take(Refuses(SleepBlocked(list))) => Some(list)
    case _ => None
  }

  function LastList(ms: seq<Move>, k: nat): seq<Inhibitor>
    requires k <= |ms|
  {
    if k == 0 then [] else if Listed(ms[k - 1]).Some? then Listed(ms[k - 1]).value else LastList(ms, k - 1)
  }

  /** The engine goes by the last one. */
  lemma {:induction false} ListExactly(b: Boot, ws: seq<World>, ms: seq<Move>, k: nat)
    requires IsRun(b, ws, ms) && k < |ws|
    ensures ws[k].core.external == LastList(ms, k)
  {
    hide Inv, Perform, Legal, Start;
    if k == 0 {
      StartsUnlisted(b);
    } else {
      ListExactly(b, ws, ms, k - 1);
      RunKeepsInv(b, ws, ms, k - 1);
      var w, m := ws[k - 1], ms[k - 1];
      assert Legal(w, m) && ws[k] == Perform(w, m);
      NotDown(w, m);
      ListTurn(w, m);
    }
  }

  lemma StartsUnlisted(b: Boot)
    ensures Start(b).core.external == []
  {
    hide ModeCommands;
  }

  lemma ListTurn(w: World, m: Move)
    requires Inv(w) && Legal(w, m) && !w.down
    ensures Perform(w, m).core.external == if Listed(m).Some? then Listed(m).value else w.core.external
  {
    hide Inv, Perform, Handle, SetConfig, Virtual, After, Found, ArmRtc, AutoModeOk, NextMode, NextState, NextPending, NextInterrupted, WakeEvent;
    if Fed(w, m).Some? {
      FedTurn(w, m);
      InvInOrder(w);
      FieldsExactly(w.core, Fed(w, m).value);
      if m.Take? && m.input.PowerMoves? {
        PowerEvents(w);
      } else if m.Take? && m.input.WakesUp? {
        WakeKinds(w, m.input.now);
      }
    } else if Loaded(w, m).Some? {
      LoadedTurn(w, m);
      SetConfigFrame(w.core, Loaded(w, m).value);
    } else {
      PlainTurn(w, m);
    }
  }

  lemma WakeKinds(w: World, now: Instant)
    ensures WakeEvent(w, now).1 == Resumed || WakeEvent(w, now).1 == ResumedByUser
  {
  }

  /** Respecting inhibitors means it: no suspend that is not forced is executed
      while logind's last list is not empty, or while a sleep inhibitor has been
      granted and neither taken back nor run out. */
  lemma InhibitorsRespected(b: Boot, ws: seq<World>, ms: seq<Move>, k: nat, i: Inhibit)
    requires IsRun(b, ws, ms) && k < |ws| && !ws[k].down
    requires ws[k].queue != [] && ws[k].queue[0].GoToSleep? && !ws[k].queue[0].force
    requires ws[k].core.config.sleep.respectInhibitors
    ensures LastList(ms, k) == []
    ensures i in ws[k].core.inhibits ==> i.what == InhibitIdle && InhibitExpiry(i.id) in Virtual(ws[k]).timers
    ensures !GrantedSince(ws, ms, k, i.id)
  {
    hide GrantedSince;
    GrantedExactly(b, ws, ms, k, i.id);
    ListExactly(b, ws, ms, k);
    var w := ws[k];
    RunKeepsInv(b, ws, ms, k);
    HeadPivot(w);
    assert !Blocked(w.core);
    if i in w.core.inhibits {
      assert HasInhibit(w.core.inhibits, i.id);
      assert ExpiriesOk(w.core, Virtual(w));
    }
  }

  /** The expiry timers are the inhibitor table, whose ids are fresh. */
  lemma ExpiriesAreTheTable(b: Boot, ws: seq<World>, ms: seq<Move>, k: nat)
    requires IsRun(b, ws, ms) && k < |ws| && Drained(ws[k])
    ensures forall id :: InhibitExpiry(id) in ws[k].fx.timers <==> HasInhibit(ws[k].core.inhibits, id)
    ensures TableOk(ws[k].core.inhibits, ws[k].core.nextInhibitId)
  {
    RunKeepsInv(b, ws, ms, k);
    DrainedReady(ws[k]);
  }

  // ------------------------------------------------------------- the alarm

  /** A drained daemon remembers an alarm only in the cycle past Grace, and the
      hardware holds one only there, unless a CancelWake has missed it. */
  lemma AlarmDiesWithTheCycle(b: Boot, ws: seq<World>, ms: seq<Move>, k: nat)
    requires IsRun(b, ws, ms) && k < |ws| && Drained(ws[k])
    ensures ws[k].fx.scheduled.Some? ==> ws[k].core.state.PastGrace()
    ensures ws[k].cells != map[] && !ws[k].missed ==> ws[k].core.state.PastGrace()
  {
    RunKeepsInv(b, ws, ms, k);
    DrainedReady(ws[k]);
  }

  lemma OneDevice(rtc: Option<Device>, cells: map<Device, nat>, d: Device, at: Instant, a: Answer)
    requires rtc == Some(d) && cells.Keys <= {d}
    ensures ArmRtc(rtc, cells, at, a).1.Keys <= {d}
    ensures a.clears ==> ClearRtc(rtc, cells, a.clears) == map[]
    ensures ClearRtc(rtc, cells, a.clears).Keys <= {d}
  {
    if a.clears {
      assert ClearRtc(rtc, cells, a.clears).Keys == {};
    }
  }

  /** None does while the handle stays the same and clearing works. */
  lemma {:induction false} NeverMissed(b: Boot, ws: seq<World>, ms: seq<Move>, k: nat, d: Device)
    requires IsRun(b, ws, ms) && k < |ws|
    requires forall j :: 0 <= j < |ws| ==> ws[j].rtc == Some(d)
    requires forall j :: 0 <= j < |ms| && ms[j].Drain? && ws[j].queue[0] == CancelWake ==> ms[j].answer.clears
    ensures ws[k].cells.Keys <= {d} && !ws[k].missed
  {
    hide Perform, Legal, Start;
    if k == 0 {
      NothingArmedYet(b);
    } else {
      NeverMissed(b, ws, ms, k - 1, d);
      assert Legal(ws[k - 1], ms[k - 1]) && ws[k] == Perform(ws[k - 1], ms[k - 1]);
      StepMisses(ws[k - 1], ms[k - 1], d);
    }
  }

  lemma NothingArmedYet(b: Boot)
    ensures Start(b).cells == map[] && !Start(b).missed
  {
    hide StartOut;
  }

  lemma StepMisses(w: World, m: Move, d: Device)
    requires Legal(w, m) && w.rtc == Some(d) && w.cells.Keys <= {d} && !w.missed
    requires m.Drain? && w.queue[0] == CancelWake ==> m.answer.clears
    ensures Perform(w, m).cells.Keys <= {d} && !Perform(w, m).missed
  {
    hide Handle, SetConfig, ArmRtc, ClearRtc, Apply, Load, WakeEvent;
    match m
    case Drain(a) =>
      OneDevice(w.rtc, w.cells, d, 0, a);
      if w.queue[0].ScheduleWake? {
        OneDevice(w.rtc, w.cells, d, a.now + w.queue[0].after, a);
      }
    case Take(i) =>
      WakeEventFrame(w);
  }

  lemma WakeEventFrame(w: World)
    ensures forall now :: WakeEvent(w, now).0 == w.(fx := WakeEvent(w, now).0.fx)
  {
  }

  // ------------------------------------------------------------- the panel

  /** The step that ends a Grace with a dark panel because AC is back. */
  predicate StrandingMove(w: World, m: Move) {
    m == Take(PowerMoves) && Legal(w, m) && Strands(w.core, w.fx, w.feed.channel[0])
  }

  lemma {:induction false} StrandedByAMove(b: Boot, ws: seq<World>, ms: seq<Move>, k: nat)
    requires IsRun(b, ws, ms) && k < |ws|
    ensures ws[k].stranded <==> exists j :: 0 <= j < k && StrandingMove(ws[j], ms[j])
  {
    hide StrandingMove, Perform, Legal, Start;
    if k == 0 {
      NotStrandedAtFirst(b);
    } else {
      StrandedByAMove(b, ws, ms, k - 1);
      assert Legal(ws[k - 1], ms[k - 1]) && ws[k] == Perform(ws[k - 1], ms[k - 1]);
      StepStrands(ws[k - 1], ms[k - 1]);
    }
  }

  lemma NotStrandedAtFirst(b: Boot)
    ensures !Start(b).stranded
  {
    hide StartOut;
  }

  lemma StepStrands(w: World, m: Move)
    requires Legal(w, m)
    ensures Perform(w, m).stranded <==> w.stranded || StrandingMove(w, m)
  {
    hide Strands;
    match m
    case Drain(a) => DrainStrandsNone(w, a);
    case Take(i) =>
      OnlyPowerStrands(w.core, w.fx);
      TakeStrands(w, i);
  }

  lemma DrainStrandsNone(w: World, a: Answer)
    requires w.queue != []
    ensures Execute(w, a).stranded == w.stranded
  {
    hide Handle, SetConfig, ArmRtc, ClearRtc, Apply, Load, CountFailures, SetDisplay, ReplaceStages, SetScreen;
  }

  lemma OnlyPowerStrands(c: Core, v: Effects)
    ensures forall e, u {:trigger Strands(c, u, e)} :: Strands(c, u, e) ==> e.AcChanged?
  {
  }

  lemma TakeStrands(w: World, i: Input)
    requires Possible(w, i)
    requires forall e, u {:trigger Strands(w.core, u, e)} :: Strands(w.core, u, e) ==> e.AcChanged?
    ensures Receive(w, i).stranded == (w.stranded || (i == PowerMoves && Strands(w.core, w.fx, w.feed.channel[0])))
  {
    hide Handle, CountFailures, Strands, ReadSource, Register, Unregister, Note, ClassifyWake;
  }

  /** In a run without such a step the panel is lit whenever the daemon is in
      `Active`, drained or not yet (counting what is still in the queue), also
      after a refused suspend has gone back to where it came from. */
  lemma PanelRestored(b: Boot, ws: seq<World>, ms: seq<Move>, k: nat)
    requires IsRun(b, ws, ms) && k < |ws| && !ws[k].down
    requires forall j :: 0 <= j < k ==> !StrandingMove(ws[j], ms[j])
    ensures ws[k].core.state == Active ==> !Dark(Virtual(ws[k]))
    ensures ws[k].core.state == Dimmed ==> !Virtual(ws[k]).screenOff
    ensures ws[k].core.state == Active && Drained(ws[k]) ==> !ws[k].fx.dimmed && !ws[k].fx.screenOff
  {
    hide After;
    RunKeepsInv(b, ws, ms, k);
    StrandedByAMove(b, ws, ms, k);
    if Drained(ws[k]) {
      DrainedReady(ws[k]);
    }
  }

  /** And such a step does leave it dark, every time. */
  lemma StrandingLeavesDark(b: Boot, ws: seq<World>, ms: seq<Move>, k: nat)
    requires IsRun(b, ws, ms) && k < |ms| && StrandingMove(ws[k], ms[k])
    ensures ws[k + 1].core.state == Active && Dark(Virtual(ws[k + 1]))
  {
    hide Inv, Handle, Found, After, Virtual, Perform;
    var w, m := ws[k], ms[k];
    RunKeepsInv(b, ws, ms, k);
    assert ws[k + 1] == Perform(w, m);
    FedTurn(w, m);
    FoundEffects(w, m);
    TakeFound(w, m.input);
    StrandingIsSilent(w.core, w.fx, AcChanged(true));
    UnlitChangesNothing(Virtual(Found(w, m)), Sent(w, m));
  }

  // --------------------------------------------------------- the idle stages

  /** Outside the phases past Grace the last stages sent are the timeouts of the
      mode in effect in the config in effect, each stage its own and none that is
      switched off; and a connected agent has been told exactly these and the
      display section. */
  lemma StagesEndToEnd(b: Boot, ws: seq<World>, ms: seq<Move>, k: nat)
    requires IsRun(b, ws, ms) && k < |ws| && Drained(ws[k]) && !ws[k].core.state.PastGrace()
    ensures var s, config, name := ws[k].fx.stages, ws[k].core.config, ws[k].core.mode.name;
            && (name in config.modes ==>
                  var mode := config.modes[name];
                  && s.dim == (if mode.dimAfter > 0 then Some(mode.dimAfter) else None)
                  && s.screenOff == (if mode.screenOffAfter > 0 then Some(mode.screenOffAfter) else None)
                  && s.sleep == (if mode.sleepAfter > 0 then Some(mode.sleepAfter) else None))
            && (name !in config.modes ==> s == NO_STAGES)
            && (ws[k].link.stream.Some? ==> Beliefs(ws[k].link.sent) == Belief(Some(config.display), Some(s)))
  {
    RunKeepsInv(b, ws, ms, k);
    DrainedReady(ws[k]);
  }

  // -------------------------------------------------------------- the clients

  /** Some client has sent a request with this id by step `k`. */
  ghost predicate Asked(ms: seq<Move>, k: nat, id: RequestId)
    requires k <= |ms|
  {
    exists j :: 0 <= j < k && IsRequest(ms[j], id)
  }

  predicate IsRequest(m: Move, id: RequestId) {
    m.Take? && m.input.Client? && m.input.id == id
  }

  lemma {:induction false} AskedOnce(b: Boot, ws: seq<World>, ms: seq<Move>, k: nat, id: RequestId)
    requires IsRun(b, ws, ms) && k < |ws|
    ensures ws[k].asked[id] == if Asked(ms, k, id) then 1 else 0
  {
    hide IsRequest, Perform, Legal, Start;
    if k == 0 {
      NobodyAskedYet(b);
    } else {
      AskedOnce(b, ws, ms, k - 1, id);
      assert Legal(ws[k - 1], ms[k - 1]) && ws[k] == Perform(ws[k - 1], ms[k - 1]);
      StepAsks(ws[k - 1], ms[k - 1], id);
      assert Asked(ms, k, id) <==> Asked(ms, k - 1, id) || IsRequest(ms[k - 1], id);
    }
  }

  lemma NobodyAskedYet(b: Boot)
    ensures Start(b).asked == multiset{}
  {
    hide StartOut;
  }

  lemma StepAsks(w: World, m: Move, id: RequestId)
    requires Legal(w, m)
    ensures Perform(w, m).asked[id] == w.asked[id] + (if IsRequest(m, id) then 1 else 0)
    ensures IsRequest(m, id) ==> w.asked[id] == 0
  {
    hide Execute, Receive;
    match m
    case Drain(a) => DrainAsks(w, a);
    case Take(i) => TakeAsks(w, i);
  }

  lemma DrainAsks(w: World, a: Answer)
    requires w.queue != []
    ensures Execute(w, a).asked == w.asked
  {
    hide Execute, IsPivot;
    if IsPivot(w.queue[0]) {
      PivotAsks(w, a);
    } else {
      EffectFrame(w, a);
    }
  }

  lemma PivotAsks(w: World, a: Answer)
    requires w.queue != [] && IsPivot(w.queue[0])
    ensures Execute(w, a).asked == w.asked
  {
    hide Handle, SetConfig, ArmRtc, CountFailures, Load, RtcFor, SetDisplay;
  }

  lemma TakeAsks(w: World, i: Input)
    requires Possible(w, i)
    ensures Receive(w, i).asked == w.asked + (if i.Client? then multiset{i.id} else multiset{})
  {
    if Fed(w, Take(i)).Some? {
      hide Deliver, Found;
      TakeIsFeedBack(w, i);
      FoundAsks(w, i);
      DeliverAsks(Found(w, Take(i)), Fed(w, Take(i)).value);
    } else {
      hide Deliver, WakeEvent;
    }
  }

  lemma FoundAsks(w: World, i: Input)
    ensures Found(w, Take(i)).asked == w.asked + (if i.Client? then multiset{i.id} else multiset{})
  {
    hide ClassifyWake;
  }

  lemma DeliverAsks(w: World, e: Event)
    ensures Deliver(w, e).asked == w.asked
  {
    hide Handle, CountFailures, Strands;
  }

  /** Whenever the queue is drained every request received has been answered
      exactly once, and nothing else has. */
  lemma OneReplyEach(b: Boot, ws: seq<World>, ms: seq<Move>, k: nat, id: RequestId)
    requires IsRun(b, ws, ms) && k < |ws| && Drained(ws[k])
    ensures ws[k].fx.answered[id] == if Asked(ms, k, id) then 1 else 0
  {
    RunKeepsInv(b, ws, ms, k);
    DrainedReady(ws[k]);
    AskedOnce(b, ws, ms, k, id);
  }

  /** Until then at most once: a debt is in the queue, not lost. */
  lemma NeverTwice(b: Boot, ws: seq<World>, ms: seq<Move>, k: nat, id: RequestId)
    requires IsRun(b, ws, ms) && k < |ws| && !ws[k].down
    ensures ws[k].fx.answered[id] <= Virtual(ws[k]).answered[id] <= ws[k].asked[id] <= 1
  {
    RunKeepsInv(b, ws, ms, k);
    AskedOnce(b, ws, ms, k, id);
    AnsweredGrows(ws[k].fx, ws[k].queue, id);
    assert (Virtual(ws[k]).answered + OwedBy(Virtual(ws[k]).pivots))[id] >= Virtual(ws[k]).answered[id];
  }

  lemma ApplyAnswers(v: Effects, c: Command, id: RequestId)
    ensures v.answered[id] <= Apply(v, c).answered[id]
    ensures Apply(v, c).chained ==> v.chained
  {
  }

  lemma {:induction false} AnsweredGrows(v: Effects, q: seq<Command>, id: RequestId)
    ensures v.answered[id] <= After(v, q).answered[id]
    ensures After(v, q).chained ==> v.chained
    decreases |q|
  {
    if q != [] {
      hide Apply;
      ApplyAnswers(v, q[0], id);
      AnsweredGrows(Apply(v, q[0]), q[1..], id);
    }
  }

  // ------------------------------------------------------------- subscribers

  /** The state broadcasts form one unbroken chain at any moment, and it ends in
      the engine's state whenever the queue is drained. */
  lemma BroadcastsChain(b: Boot, ws: seq<World>, ms: seq<Move>, k: nat)
    requires IsRun(b, ws, ms) && k < |ws| && !ws[k].down
    ensures ws[k].fx.chained
    ensures Drained(ws[k]) ==> ws[k].fx.lastTo == ws[k].core.state
  {
    RunKeepsInv(b, ws, ms, k);
    AnsweredGrows(ws[k].fx, ws[k].queue, 0);
  }

  // ------------------------------------------------------------------- power

  /** With the supply channel empty the engine knows the last known power; and
      an automatic mode is always the one power asks for. */
  lemma PowerAgrees(b: Boot, ws: seq<World>, ms: seq<Move>, k: nat)
    requires IsRun(b, ws, ms) && k < |ws| && !ws[k].down
    ensures var c := ws[k].core;
            var f := ws[k].feed;
            && (f.channel == [] ==>
                  c.ac == f.previous.ac && (f.previous.battery.Some? ==> c.battery == f.previous.battery) && c.battery == f.known.battery)
            && (c.mode.Auto? ==> c.mode.name == Wanted(c.config, c.mode.name, c.ac, c.low))
            && LowOk(c)
  {
    hide After, TableOk, TimersOk, ExpiriesOk, AlarmOk, StagesOk, PivotsOk;
    RunKeepsInv(b, ws, ms, k);
  }

  // -------------------------------------------------------------- the counter

  /** In the cycle the failure counter is the count kept from outside. */
  lemma CounterExact(b: Boot, ws: seq<World>, ms: seq<Move>, k: nat)
    requires IsRun(b, ws, ms) && k < |ws| && !ws[k].down && ws[k].core.state.LongSleep?
    ensures ws[k].core.sleepFailures == ws[k].count < MAX_SLEEP_FAILURES
  {
    hide After, TableOk, TimersOk, ExpiriesOk, AlarmOk, StagesOk, PivotsOk;
    RunKeepsInv(b, ws, ms, k);
  }

  // -------------------------------------------------------------- termination

  /** Executing a command always leaves less to do. */
  lemma ExecuteShrinks(w: World, a: Answer)
    requires w.queue != []
    ensures Weight(Execute(w, a).queue) < Weight(w.queue)
  {
    hide Handle, SetConfig, ArmRtc, ClearRtc, Apply, Weight, Load;
    var rest := w.queue[1..];
    assert Weight(w.queue) == WeightOf(w.queue[0]) + Weight(rest) by { WeightHead(w.queue); }
    match w.queue[0]
    case GoToSleep(_, _) =>
      ReentryShrinks(w.core, true, w.core.config, None);
      WeightConcat(rest, Handle(w.core, SleepFailed).cmds);
    case ScheduleWake(after) =>
      var armed := ArmRtc(w.rtc, w.cells, a.now + after, a).0;
      ReentryShrinks(w.core, armed, w.core.config, None);
      WeightConcat(rest, Handle(w.core, WakeScheduled(armed)).cmds);
    case Reload(replyTo) =>
      if Load(a.parsed).Some? {
        var config := Load(a.parsed).value;
        ReentryShrinks(w.core, true, config, replyTo);
        var reply := if replyTo.Some? then [Reply(replyTo.value, Done)] else [];
        WeightConcat(SetConfig(w.core, config).cmds, reply);
        WeightConcat(rest, SetConfig(w.core, config).cmds + reply);
        ReplyWeight(replyTo);
      }
    case _ =>
  }

  lemma WeightHead(q: seq<Command>)
    requires q != []
    ensures Weight(q) == WeightOf(q[0]) + Weight(q[1..])
  {
  }

  lemma ReplyWeight(replyTo: Option<RequestId>)
    ensures Weight(if replyTo.Some? then [Reply(replyTo.value, Done)] else []) <= 1
  {
    hide Weight;
    Weights();
  }

  /** A drain takes at most as many turns as its queue weighs, whatever the
      answers are. */
  lemma {:induction false} DrainTerminates(ws: seq<World>, answers: seq<Answer>)
    requires |ws| == |answers| + 1
    requires forall k :: 0 <= k < |answers| ==> ws[k].queue != [] && ws[k + 1] == Execute(ws[k], answers[k])
    ensures |answers| <= Weight(ws[0].queue)
  {
    if answers != [] {
      hide Weight;
      assert ws[0].queue != [] && ws[1] == Execute(ws[0], answers[0]);
      ExecuteShrinks(ws[0], answers[0]);
      DrainTerminates(ws[1..], answers[1..]);
    }
  }

  /** A whole drain: the head of the queue until nothing is left, or Shutdown. */
  function DrainAll(w: World, answers: nat -> Answer, i: nat): World
    decreases Weight(w.queue)
  {
    if w.queue == [] || w.down then w
    else
      ExecuteShrinks(w, answers(i));
      DrainAll(Execute(w, answers(i)), answers, i + 1)
  }
}
