/** The daemon as the object it is: the engine, the registries and the queue,
    and the loop that drains it. What a broadcast or a backlight command does
    outside the process is kept in ghost fields. */
module DaemonObject {
  import opened Types
  import T = Transition
  import F = Effects
  import Invariants
  import Discipline
  import A = Agent
  import S = Supply
  import opened Wake
  import W = World
  import Safety
  import Runs
  import opened EngineObject
  import opened Timers

  // ------------------------------------------- what executing a head comes to

  lemma SleepHead(w: W.World, a: W.Answer)
    requires w.queue != [] && w.queue[0].GoToSleep?
    ensures var w' := w.(queue := w.queue[1..]);
            W.Execute(w, a) ==
              if w.logind.Some? && a.accepted then w'.(inflight := w.inflight + 1) else W.FeedBack(w', SleepFailed)
  {
    hide W.FeedBack;
  }

  lemma WakeHead(w: W.World, a: W.Answer)
    requires w.queue != [] && w.queue[0].ScheduleWake?
    ensures W.Execute(w, a) == W.ExecuteScheduleWake(w.(queue := w.queue[1..]), w.queue[0].after, a)
  {
    hide W.ExecuteScheduleWake;
  }

  lemma ReloadHead(w: W.World, a: W.Answer)
    requires w.queue != [] && w.queue[0].Reload?
    ensures W.Execute(w, a) == W.ExecuteReload(w.(queue := w.queue[1..]), w.queue[0].replyTo, a)
  {
    hide W.ExecuteReload;
  }

  lemma CancelHead(w: W.World, a: W.Answer)
    requires w.queue != [] && w.queue[0] == CancelWake
    ensures var w', left := w.(queue := w.queue[1..]), W.ClearRtc(w.rtc, w.cells, a.clears);
            W.Execute(w, a) == w'.(fx := F.Apply(w.fx, CancelWake), cells := left, missed := w.missed || left != map[])
  {
    hide W.ClearRtc, F.Apply;
  }

  /** The heads that are an effect and no more. */
  lemma EffectHead(w: W.World, a: W.Answer)
    requires w.queue != [] && !F.IsPivot(w.queue[0]) && w.queue[0] != CancelWake
    ensures var w', c := w.(queue := w.queue[1..]), w.queue[0];
            W.Execute(w, a) == w'.(fx := F.Apply(w.fx, c),
                                   link := if c.Screen? then A.SetScreen(w.link, c.on)
                                           else if c.ReplaceIdleStages? then A.ReplaceStages(w.link, c.stages) else w.link)
  {
    hide F.Apply, A.SetScreen, A.ReplaceStages;
  }

  lemma CancelApplies(fx: F.Effects)
    ensures F.Apply(fx, CancelWake) == fx.(scheduled := None, live := false)
  {
  }

  lemma EndHead(w: W.World, a: W.Answer)
    requires w.queue != [] && (w.queue[0] == PowerOff || w.queue[0] == Shutdown)
    ensures W.Execute(w, a) == w.(queue := w.queue[1..], down := w.down || w.queue[0] == Shutdown)
  {
  }

  class Daemon {
    const engine: Engine
    const timers: TimerRegistry
    const planner: Planner
    const agent: A.AgentLink
    const supply: S.SupplyActor
    var queue: seq<Command>
    var rtc: Option<Device>
    var cells: map<Device, nat>
    var logind: Option<bool>
    var answered: multiset<RequestId>
    var down: bool
    ghost var fx: F.Effects
    ghost var armedAt: Option<Instant>
    ghost var inflight: nat
    ghost var asked: multiset<RequestId>
    ghost var count: nat
    ghost var stranded: bool
    ghost var missed: bool

    ghost function View(): W.World
      reads this, engine, agent, supply
    {
      W.World(engine.View(), queue, fx, agent.View(), rtc, cells, armedAt, logind, inflight, supply.View(), asked,
              count, stranded, missed, down)
    }

    /** The record of what was executed agrees with the objects it was done to. */
    ghost predicate Recorded()
      reads this, timers, planner, agent
    {
      && fx.timers == timers.running.Keys && fx.scheduled == planner.scheduled && fx.stages == agent.stages
      && fx.answered == answered
    }

    ghost predicate Valid()
      reads this, timers, planner, agent, supply
    {
      timers.Valid() && supply.Valid() && Recorded()
    }

    constructor (b: W.Boot)
      ensures Valid() && View() == W.Start(b)
    {
      hide W.Start, W.StartOut, W.RtcFor, T.NewEngine, View, Coherent, A.NewLink, A.LinkOk, S.NewFeed, S.FeedOk, TimerRegistry.Valid, S.SupplyActor.Valid;
      engine := new Engine(b.config, b.power.ac, b.power.battery);
      timers := new TimerRegistry();
      planner := new Planner();
      agent := new A.AgentLink(b.config.display);
      supply := new S.SupplyActor(b.power, true);
      rtc, cells, logind := W.RtcFor(b.config, b.discovered), map[], b.logind;
      answered, down, asked := multiset{}, false, multiset{};
      armedAt, inflight, count, stranded, missed := None, 0, 0, false, false;
      queue := [];
      fx := W.Start(b).fx;
      new;
      Boot(b);
      Started(b);
    }

    /** Everything but the engine and its queue is as a run starts. */
    ghost predicate Idle(b: W.Boot)
      reads this, timers, planner, agent, supply
    {
      && timers.Valid() && supply.Valid() && timers.running == map[] && planner.scheduled == None
      && agent.View() == A.NewLink(b.config.display) && supply.View() == S.NewFeed(b.power)
      && rtc == W.RtcFor(b.config, b.discovered) && cells == map[] && logind == b.logind
      && answered == asked == multiset{} && !down && armedAt == None && inflight == count == 0 && !stranded && !missed
      && fx == W.Start(b).fx
    }

    lemma Started(b: W.Boot)
      requires Idle(b) && T.Out(engine.View(), queue) == W.StartOut(b)
      ensures Valid() && View() == W.Start(b)
    {
      hide W.StartOut, W.RtcFor, TimerRegistry.Valid, S.SupplyActor.Valid;
    }

    /** What `run` does before the first event. */
    method Boot(b: W.Boot)
      requires engine.View() == T.NewEngine(b.config, b.power.ac, b.power.battery)
      modifies this`queue, engine
      ensures T.Out(engine.View(), queue) == W.StartOut(b)
    {
      hide T.NewEngine, T.RestoreManualMode, T.Handle, T.ModeCommands, T.ResumeCycle;
      if b.savedMode.Some? {
        var _ := engine.RestoreManualMode(b.savedMode.value);
      }
      var commands := engine.Start();
      var more := engine.Handle(HibernateAvailable(b.logind == Some(true)));
      commands := commands + more;
      if b.config.server.enabled && !b.power.ac && b.wasInCycle {
        more := engine.ResumeCycle();
        commands := commands + more;
      }
      queue := commands;
    }

    // ------------------------------------------------------------ executing

    /** The engine answers in the middle of a drain; the queue grows at its end. */
    method FeedBack(event: Event)
      requires Valid()
      modifies this`queue, this`count, engine
      ensures Valid() && View() == W.FeedBack(old(View()), event)
    {
      hide T.Handle, Discipline.CountFailures;
      ghost var before := engine.View();
      var commands := engine.Handle(event);
      queue := queue + commands;
      count := Discipline.CountFailures(before, event, engine.state, count);
    }

    /** The planner remembers an alarm that could be written, and forgets the rest. */
    method TellPlanner(at: Instant, armed: bool)
      requires Valid()
      modifies this`fx, this`armedAt, planner
      ensures Valid()
      ensures var w := old(View());
              View() == w.(fx := w.fx.(scheduled := if armed then Some(at) else None, live := armed || w.fx.live),
                           armedAt := if armed then Some(at) else w.armedAt)
    {
      hide TimerRegistry.Valid, S.SupplyActor.Valid;
      if armed {
        planner.Armed(at);
        fx := fx.(scheduled := Some(at), live := true);
        armedAt := Some(at);
      } else {
        planner.Disarmed();
        fx := fx.(scheduled := None);
      }
    }

    /** The alarm is written, and the planner told. */
    method ArmAt(at: Instant, a: W.Answer) returns (armed: bool)
      requires Valid()
      modifies this`cells, this`fx, this`armedAt, planner
      ensures Valid()
      ensures var w := old(View());
              var left := W.ArmRtc(w.rtc, w.cells, at, a).1;
              && armed == W.ArmRtc(w.rtc, w.cells, at, a).0
              && View() == w.(cells := left,
                              fx := w.fx.(scheduled := if armed then Some(at) else None, live := armed || w.fx.live),
                              armedAt := if armed then Some(at) else w.armedAt)
    {
      hide W.ArmRtc, TimerRegistry.Valid, S.SupplyActor.Valid;
      var (done, left) := W.ArmRtc(rtc, cells, at, a);
      armed := done;
      TellPlanner(at, armed);
      cells := left;
    }

    method ScheduleWakeIn(after: Duration, a: W.Answer)
      requires Valid()
      modifies this, engine, planner
      ensures Valid() && View() == W.ExecuteScheduleWake(old(View()), after, a)
    {
      hide W.FeedBack, W.ArmRtc, Valid;
      var armed := ArmAt(a.now + after, a);
      FeedBack(WakeScheduled(armed));
    }

    method ReloadConfig(replyTo: Option<RequestId>, a: W.Answer)
      requires Valid()
      modifies this, engine, agent
      ensures Valid() && View() == W.ExecuteReload(old(View()), replyTo, a)
    {
      hide W.Load;
      var loaded := W.Load(a.parsed);
      if loaded.Some? {
        UseConfig(loaded.value, replyTo, a);
      } else if replyTo.Some? {
        answered := answered + multiset{replyTo.value};
        fx := fx.(answered := answered);
      }
    }

    method UseConfig(config: Config, replyTo: Option<RequestId>, a: W.Answer)
      requires Valid() && W.Load(a.parsed) == Some(config)
      modifies this`rtc, this`queue, engine, agent
      ensures Valid() && View() == W.ExecuteReload(old(View()), replyTo, a)
    {
      hide T.SetConfig, W.RtcFor, W.Load, TimerRegistry.Valid, S.SupplyActor.Valid;
      Safety.SetDisplayFrame(agent.View(), config.display);
      if config.server != engine.config.server {
        rtc := W.RtcFor(config, a.discovered);
      }
      agent.ReplaceDisplay(config.display);
      var commands := engine.SetConfig(config);
      if replyTo.Some? {
        commands := commands + [Reply(replyTo.value, Types.Done)];
      } else {
        assert commands + [] == commands;
      }
      queue := queue + commands;
    }

    method CancelAlarm(a: W.Answer)
      requires Valid()
      modifies this`cells, this`missed, this`fx, planner
      ensures Valid()
      ensures var w := old(View());
              var left := W.ClearRtc(w.rtc, w.cells, a.clears);
              View() == w.(fx := F.Apply(w.fx, CancelWake), cells := left, missed := w.missed || left != map[])
    {
      hide W.ClearRtc, TimerRegistry.Valid, S.SupplyActor.Valid, F.Apply;
      CancelApplies(fx);
      planner.Disarmed();
      fx := F.Apply(fx, CancelWake);
      cells := W.ClearRtc(rtc, cells, a.clears);
      missed := missed || cells != map[];
    }

    method SetTimer(command: Command, late: bool)
      requires Valid() && (command.StartTimer? || command.CancelTimer?)
      modifies this`fx, timers
      ensures Valid() && View() == old(View()).(fx := F.Apply(old(View()).fx, command))
    {
      hide Coherent, Start, Cancel;
      fx := F.Apply(fx, command);
      if command.StartTimer? {
        timers.StartTimer(command.timer, late);
      } else {
        timers.CancelTimer(command.timer, late);
      }
    }

    method TellAgent(command: Command)
      requires Valid() && (command.ReplaceIdleStages? || command.Screen?)
      modifies this`fx, agent
      ensures Valid()
      ensures var w := old(View());
              View() == w.(fx := F.Apply(w.fx, command),
                           link := if command.Screen? then A.SetScreen(w.link, command.on)
                                   else A.ReplaceStages(w.link, command.stages))
    {
      hide Coherent;
      fx := F.Apply(fx, command);
      if command.Screen? {
        agent.TurnScreen(command.on);
      } else {
        agent.ReplaceIdleStages(command.stages);
      }
    }

    /** Commands whose effect is outside the process. */
    method Emit(command: Command)
      requires Valid()
      requires command.Dim? || command.Undim? || command.Reply? || command.Broadcast? || command.ApplyMode? || command.RunHook?
      modifies this`fx, this`answered
      ensures Valid() && View() == old(View()).(fx := F.Apply(old(View()).fx, command))
    {
      hide Coherent;
      if command.Reply? {
        answered := answered + multiset{command.id};
      }
      fx := F.Apply(fx, command);
    }

    method Pop() returns (command: Command)
      requires Valid() && queue != []
      modifies this`queue
      ensures Valid() && command == old(queue)[0] && View() == old(View()).(queue := old(queue)[1..])
    {
      hide Coherent;
      command := queue[0];
      queue := queue[1..];
    }

    /** A request logind has no room for, or no logind at all, comes back as a
        failed attempt. */
    method AskToSleep(a: W.Answer)
      requires Valid() && queue != [] && queue[0].GoToSleep?
      modifies this`queue, this`count, this`inflight, engine
      ensures Valid() && View() == W.Execute(old(View()), a)
    {
      hide W.Execute, W.FeedBack, Coherent;
      SleepHead(View(), a);
      var _ := Pop();
      if logind.Some? && a.accepted {
        inflight := inflight + 1;
      } else {
        FeedBack(SleepFailed);
      }
    }

    method HandToOwner(a: W.Answer, late: bool)
      requires Valid() && queue != []
      requires queue[0].StartTimer? || queue[0].CancelTimer? || queue[0].ReplaceIdleStages? || queue[0].Screen?
      modifies this`queue, this`fx, timers, agent
      ensures Valid() && View() == W.Execute(old(View()), a)
    {
      hide W.Execute, F.Apply, A.SetScreen, A.ReplaceStages, Valid;
      EffectHead(View(), a);
      var command := Pop();
      if command.StartTimer? || command.CancelTimer? {
        SetTimer(command, late);
      } else {
        TellAgent(command);
      }
    }

    method WakeLater(a: W.Answer)
      requires Valid() && queue != [] && queue[0].ScheduleWake?
      modifies this, engine, planner
      ensures Valid() && View() == W.Execute(old(View()), a)
    {
      hide W.Execute, W.ExecuteScheduleWake, Valid;
      WakeHead(View(), a);
      var command := Pop();
      ScheduleWakeIn(command.after, a);
    }

    method Reread(a: W.Answer)
      requires Valid() && queue != [] && queue[0].Reload?
      modifies this, engine, agent
      ensures Valid() && View() == W.Execute(old(View()), a)
    {
      hide W.Execute, W.ExecuteReload, Valid;
      ReloadHead(View(), a);
      var command := Pop();
      ReloadConfig(command.replyTo, a);
    }

    method ForgetWake(a: W.Answer)
      requires Valid() && queue != [] && queue[0].CancelWake?
      modifies this, planner
      ensures Valid() && View() == W.Execute(old(View()), a)
    {
      hide W.Execute, W.ClearRtc, F.Apply, Valid;
      CancelHead(View(), a);
      var _ := Pop();
      CancelAlarm(a);
    }

    method SendOut(a: W.Answer)
      requires Valid() && queue != []
      requires var c := queue[0];
               c.Dim? || c.Undim? || c.Reply? || c.Broadcast? || c.ApplyMode? || c.RunHook?
      modifies this`queue, this`fx, this`answered
      ensures Valid() && View() == W.Execute(old(View()), a)
    {
      hide W.Execute, F.Apply, Valid;
      EffectHead(View(), a);
      var command := Pop();
      Emit(command);
    }

    /** The end of the machine, or of the daemon. */
    method Halt(a: W.Answer)
      requires Valid() && queue != [] && (queue[0] == PowerOff || queue[0] == Shutdown)
      modifies this`queue, this`down
      ensures Valid() && View() == W.Execute(old(View()), a)
    {
      hide W.Execute, Coherent;
      EndHead(View(), a);
      var command := Pop();
      if command.Shutdown? {
        down := true;
      }
    }

    /** Takes the head of the queue and does what it says. `late` is whether the
        abort of a timer's task comes too late. */
    method Execute(a: W.Answer, late: bool)
      requires Valid() && queue != []
      modifies this, engine, timers, planner, agent
      ensures Valid() && View() == W.Execute(old(View()), a)
    {
      hide W.Execute, Valid;
      match queue[0] {
        case GoToSleep(_, _) => AskToSleep(a);
        case ScheduleWake(_) => WakeLater(a);
        case CancelWake => ForgetWake(a);
        case Reload(_) => Reread(a);
        case StartTimer(_, _) | CancelTimer(_) | ReplaceIdleStages(_) | Screen(_) => HandToOwner(a, late);
        case PowerOff | Shutdown => Halt(a);
        case _ => SendOut(a);
      }
    }

    /** The inner loop of the daemon. It ends for every answer the outside can
        give, and what it leaves behind is sound. */
    method Drain(answers: nat -> W.Answer, late: nat -> bool)
      requires Valid() && Safety.Inv(View())
      modifies this, engine, timers, planner, agent
      ensures Valid() && Safety.Inv(View()) && (queue == [] || down)
      ensures View() == Runs.DrainAll(old(View()), answers, 0)
    {
      hide W.Execute, Safety.Inv, Discipline.Weight, Coherent;
      var i := 0;
      while queue != [] && !down
        invariant Valid() && Safety.Inv(View())
        invariant Runs.DrainAll(View(), answers, i) == Runs.DrainAll(old(View()), answers, 0)
        decreases Discipline.Weight(queue)
      {
        Safety.ExecuteKeeps(View(), answers(i));
        Runs.ExecuteShrinks(View(), answers(i));
        Execute(answers(i), late(i));
        i := i + 1;
      }
    }

    // --------------------------------------------------------------- events

    ghost method NewDrain(strands: bool)
      requires Valid()
      modifies this`stranded, this`armedAt
      ensures Valid() && View() == old(View()).(armedAt := None, stranded := old(View()).stranded || strands)
    {
      hide Coherent;
      stranded := stranded || strands;
      armedAt := None;
    }

    /** A new event, at a drained queue. */
    method Deliver(event: Event)
      requires Valid()
      modifies this, engine
      ensures Valid() && View() == W.Deliver(old(View()), event)
    {
      hide W.FeedBack, Invariants.Strands, Valid;
      ghost var strands := Invariants.Strands(engine.View(), fx, event);
      FeedBack(event);
      NewDrain(strands);
    }

    /** A resume in the cycle is classified before the engine sees it. */
    method OnWake(now: Instant)
      requires Valid()
      modifies this, engine, planner
      ensures Valid() && View() == W.Deliver(W.WakeEvent(old(View()), now).0, W.WakeEvent(old(View()), now).1)
    {
      hide W.Deliver, ClassifyWake;
      var event := Resumed;
      if engine.state == LongSleep(Asleep) {
        var kind := planner.Classify(now, engine.config.server.alarmSlack);
        fx := fx.(scheduled := None);
        if kind == ByUser {
          event := ResumedByUser;
        }
      }
      Deliver(event);
    }

    /** Waiting for a timer that is still current, with tasks waking up at will. */
    method OnTimerQueue(s: Shot) returns (id: Option<TimerId>)
      requires Valid() && queue == [] && !down && Safety.Inv(View())
      modifies this, engine, timers
      ensures Valid() && Safety.Inv(View())
      ensures id.Some? ==> W.Possible(old(View()), W.TimerDue(id.value)) && View() == W.Receive(old(View()), W.TimerDue(id.value))
      ensures id.None? ==> View() == old(View())
    {
      hide W.Deliver, Safety.Inv, Coherent;
      ghost var w := View();
      timers.TaskWakes(s);
      assert View() == w;
      id := timers.NextFired();
      if id.Some? {
        fx := fx.(timers := fx.timers - {id.value});
        Safety.ReceiveKeeps(w, W.TimerDue(id.value));
        Deliver(TimerFired(id.value));
      } else {
        assert View() == w;
      }
    }
  }
}
