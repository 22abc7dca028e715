/** The invariant of every run, and what it means for whoever relies on the
    daemon. */
module Safety {
  import opened Types
  import opened Transition
  import opened Effects
  import opened Invariants
  import opened Discipline
  import opened Agent
  import opened Supply
  import opened Wake
  import opened World

  /** A wake that is about to be scheduled is not about to be cancelled too. */
  ghost predicate QueueOk(q: seq<Command>) {
    (exists d :: ScheduleWake(d) in q) ==> CancelWake !in q
  }

  /** An alarm in the hardware is one that no CancelWake has reached since. */
  ghost predicate CellsOk(w: World) {
    w.cells != map[] ==> w.fx.live || w.missed
  }

  ghost predicate AgentOk(w: World) {
    LinkOk(w.link) && w.link.stages == w.fx.stages && w.link.display == w.core.config.display
  }

  ghost predicate VerdictOk(w: World) {
    w.core.hibernateAvailable == (w.logind == Some(true))
  }

  ghost predicate CountOk(w: World) {
    w.core.state.LongSleep? ==> w.core.sleepFailures == w.count
  }

  ghost predicate RepliesOk(w: World) {
    Virtual(w).answered + OwedBy(Virtual(w).pivots) == w.asked
  }

  ghost predicate ScreenOk(w: World) {
    !w.stranded ==> PanelOk(w.core, Virtual(w))
  }

  /** The parts that look at the engine and its queue. */
  ghost predicate EngineOk(w: World) {
    && w.fx.pivots == []
    && Good(w.core, Virtual(w), ContextOf(w))
    && RepliesOk(w) && ScreenOk(w) && QueueOk(w.queue)
  }

  /** The parts that do not. */
  ghost predicate RestOk(w: World) {
    CellsOk(w) && AgentOk(w) && VerdictOk(w) && FeedOk(w.feed, PowerOf(w.core))
  }

  ghost predicate Inv(w: World) {
    !w.down ==> EngineOk(w) && CountOk(w) && RestOk(w)
  }

  // ----------------------------------------------------- popping the queue

  /** Executing anything but a pivot leaves the virtual world as it was. */
  lemma PopEffect(fx: Effects, q: seq<Command>)
    requires q != []
    ensures After(fx, q) == After(Apply(fx, q[0]), q[1..])
  {
  }

  /** A pivot at the head is the only one, and without it nothing else changes. */
  lemma PopPivot(fx: Effects, q: seq<Command>)
    requires q != [] && IsPivot(q[0]) && fx.pivots == [] && |After(fx, q).pivots| <= 1
    ensures After(fx, q) == After(fx, q[1..]).(pivots := [q[0]])
    ensures After(fx, q[1..]).pivots == []
  {
    hide Apply, IsPivot;
    var p := q[0];
    var v := After(fx, q[1..]);
    assert fx.pivots + [p] == [p] + fx.pivots;
    ApplyIsPivot(fx, p);
    PopEffect(fx, q);
    PivotsInFront(fx, [p], q[1..]);
    hide After;
    assert After(fx, q).pivots == [p] + v.pivots;
    assert v.pivots == [];
    assert [p] + v.pivots == [p];
  }

  /** Taking the pivot off leaves everything but what a waiting state waits for. */
  lemma WithoutPivot(c: Core, v: Effects, k: Context, p: Command)
    requires Good(c, v.(pivots := [p]), k) && v.pivots == [] && p != Shutdown
    ensures Ready(c, v, k) && v.chained && v.lastTo == c.state
    ensures !Waiting(c) || !(p.ScheduleWake? || p.GoToSleep?) ==> Sound(c, v, k)
    ensures PanelOk(c, v.(pivots := [p])) <==> PanelOk(c, v)
  {
    hide CurrentStages, AutoModeOk, LowOk, TableOk, CycleOk, HasInhibit;
    PivotsIrrelevant(c, v, p);
  }

  lemma PivotsIrrelevant(c: Core, v: Effects, p: Command)
    requires v.pivots == [] && p != Shutdown
    ensures var u := v.(pivots := [p]);
            && (TimersOk(c, u) <==> TimersOk(c, v)) && (ExpiriesOk(c, u) <==> ExpiriesOk(c, v))
            && (AlarmOk(c, u) <==> AlarmOk(c, v)) && (StagesOk(c, u) <==> StagesOk(c, v))
  {
    hide CurrentStages, HasInhibit;
  }

  // ------------------------------------------------------------ the engine

  /** CancelWake is only sent on the way out of the cycle, ScheduleWake only
      while staying in it. */
  lemma NeverBoth(c: Core, e: Event)
    requires NoRetryInCycle(c)
    ensures QueueOk(Handle(c, e).cmds)
  {
    hide Handle;
    EveryCommandLicensed(c, e);
    var o := Handle(c, e);
    assert CancelWake in o.cmds ==> Licensed(c.state, e, o.core, CancelWake);
    if d :| ScheduleWake(d) in o.cmds {
      assert Licensed(c.state, e, o.core, ScheduleWake(d));
    }
  }

  lemma SoundNoRetry(c: Core, v: Effects, k: Context)
    requires Steady(c, v, k)
    ensures NoRetryInCycle(c) && CycleOk(c)
  {
    hide TimersOk, ExpiriesOk, AlarmOk, StagesOk, PivotsOk, AutoModeOk, LowOk, TableOk;
  }

  lemma ArrivesNoRetry(c: Core, v: Effects, e: Event, k: Context)
    requires Arrives(c, v, e, k)
    ensures NoRetryInCycle(c) && CycleOk(c)
  {
    hide Steady;
    match e
    case TimerFired(id) => SoundNoRetry(c, v.(timers := v.timers + {id}), k);
    case _ => SoundNoRetry(c, v, k);
  }

  /** Appending what the engine sends keeps the engine's part of the invariant,
      at a drained queue as well as in mid-drain. `v` is the world as the event
      finds it. */
  lemma FeedBackKeeps(w: World, e: Event, k: Context, asked: multiset<RequestId>)
    requires w.fx.pivots == []
    requires var v := Virtual(w);
             && Arrives(w.core, v, e, k) && v.chained && v.lastTo == w.core.state
             && v.answered + OwedFor(e) == asked
    requires forall d :: ScheduleWake(d) !in w.queue
    requires w.queue != [] ==> !e.TimerFired?
    ensures var w' := FeedBack(w, e);
            && Good(w'.core, Virtual(w'), k)
            && Virtual(w').answered + OwedBy(Virtual(w').pivots) == asked
            && (PanelOk(w.core, Virtual(w)) && !Strands(w.core, Virtual(w), e) ==> PanelOk(w'.core, Virtual(w')))
            && QueueOk(w'.queue)
  {
    hide After, Arrives, Good, PanelOk, Strands, Handle;
    var o := Handle(w.core, e);
    HandleKeeps(w.core, e, Virtual(w), k);
    AfterConcat(w.fx, w.queue, o.cmds);
    ArrivesNoRetry(w.core, Virtual(w), e, k);
    NeverBoth(w.core, e);
    if w.queue == [] {
      assert w.queue + o.cmds == o.cmds;
    } else {
      NoScheduleInFeedBack(w.core, e, k, Virtual(w));
    }
  }

  /** In mid-drain the engine never schedules another wake. */
  lemma NoScheduleInFeedBack(c: Core, e: Event, k: Context, v: Effects)
    requires Arrives(c, v, e, k) && !e.TimerFired?
    ensures forall d :: ScheduleWake(d) !in Handle(c, e).cmds
  {
    hide Handle, Arrives;
    ArrivesNoRetry(c, v, e, k);
    EveryCommandLicensed(c, e);
    forall d ensures ScheduleWake(d) !in Handle(c, e).cmds {
      var o := Handle(c, e);
      assert ScheduleWake(d) in o.cmds ==> Licensed(c.state, e, o.core, ScheduleWake(d));
    }
  }

  // ------------------------------------------------------------- executing

  /** What feeding an event back does not touch. */
  lemma FeedBackRest(w: World, e: Event)
    requires CountOk(w) && CycleOk(w.core) && RestOk(w) && !e.AcChanged? && !e.Battery? && !e.HibernateAvailable?
    ensures var w' := FeedBack(w, e);
            && CountOk(w') && RestOk(w')
            && w' == w.(core := w'.core, queue := w'.queue, count := w'.count)
  {
    hide Handle, CountFailures, AttemptFailed, LinkOk, FeedOk;
    FailuresExact(w.core, e, if w.core.state.LongSleep? then w.count else 0);
    HandleSame(w.core, e);
    CountIgnoresEntry(w.core, e, FeedBack(w, e).core.state, w.count);
  }

  /** Outside the cycle the old count does not matter. */
  lemma CountIgnoresEntry(c: Core, e: Event, next: State, count: nat)
    ensures !c.state.LongSleep? && next.LongSleep? ==> CountFailures(c, e, next, count) == CountFailures(c, e, next, 0)
  {
  }

  lemma ScheduleFirst(q: seq<Command>, fx: Effects)
    requires q != [] && IsPivot(q[0]) && fx.pivots == [] && |After(fx, q).pivots| <= 1
    ensures forall d :: ScheduleWake(d) !in q[1..]
  {
    hide After;
    PopPivot(fx, q);
    PivotsCollected(fx, q[1..]);
  }

  /** A pivot at the head finds the engine as `PivotOk` says, and what is left
      without it is ready for the event it becomes. */
  lemma HeadPivot(w: World)
    requires !w.down && Inv(w) && w.queue != [] && IsPivot(w.queue[0])
    ensures var v := After(w.fx, w.queue[1..]);
            && v.pivots == [] && Virtual(w) == v.(pivots := [w.queue[0]])
            && PivotOk(w.core, Virtual(w), ContextOf(w), w.queue[0])
            && (forall d :: ScheduleWake(d) !in w.queue[1..])
  {
    hide After, PivotOk, IsPivot, CellsOk, AgentOk, TimersOk, ExpiriesOk, AlarmOk, StagesOk, AutoModeOk, LowOk, TableOk, CycleOk;
    PopPivot(w.fx, w.queue);
    ScheduleFirst(w.queue, w.fx);
  }

  /** What is known when a pivot has been taken off and its event is fed back. */
  lemma FeedBackInv(w: World, e: Event)
    requires !w.down && w.fx.pivots == [] && CountOk(w) && RestOk(w) && ScreenOk(w)
    requires var v := Virtual(w);
             && Arrives(w.core, v, e, ContextOf(w)) && v.chained && v.lastTo == w.core.state && v.answered == w.asked
    requires forall d :: ScheduleWake(d) !in w.queue
    requires e.SleepFailed? || e.WakeScheduled?
    ensures Inv(FeedBack(w, e))
  {
    hide After, FeedBack, RestOk, Arrives, Good, PanelOk;
    assert multiset{} + Virtual(w).answered == Virtual(w).answered;
    FeedBackKeeps(w, e, ContextOf(w), w.asked);
    ArrivesNoRetry(w.core, Virtual(w), e, ContextOf(w));
    FeedBackRest(w, e);
  }

  lemma SleepKeeps(w: World, a: Answer)
    requires !w.down && Inv(w) && w.queue != [] && w.queue[0].GoToSleep?
    ensures Inv(Execute(w, a))
  {
    hide After, PivotOk, FeedBack, RestOk, Sound, Steady, PanelOk;
    HeadPivot(w);
    var w1 := w.(queue := w.queue[1..]);
    var v := Virtual(w1);
    WithoutPivot(w.core, v, ContextOf(w), w.queue[0]);
    assert RestOk(w1) by { RestFrame(w, w1); }
    if w.logind.Some? && a.accepted {
      MoreInflight(w.core, v, ContextOf(w));
      RestFrame(w, Execute(w, a));
    } else {
      FeedBackInv(w1, SleepFailed);
    }
  }

  lemma RestFrame(w: World, w': World)
    requires RestOk(w)
    requires w' == w.(queue := w'.queue, inflight := w'.inflight, armedAt := w'.armedAt, asked := w'.asked,
                      count := w'.count, stranded := w'.stranded, down := w'.down)
    ensures RestOk(w')
  {
  }

  lemma MoreInflight(c: Core, v: Effects, k: Context)
    requires Ready(c, v, k)
    ensures Sound(c, v, k.(inflight := k.inflight + 1))
  {
    hide CurrentStages, AutoModeOk, LowOk, TableOk, HasInhibit;
  }

  /** A failed attempt to arm adds no alarm, and clearing adds none either. */
  lemma NoNewAlarm(rtc: Option<Device>, cells: map<Device, nat>, at: Instant, a: Answer)
    ensures !ArmRtc(rtc, cells, at, a).0 && ArmRtc(rtc, cells, at, a).1 != map[] ==> cells != map[]
    ensures ClearRtc(rtc, cells, a.clears) != map[] ==> cells != map[]
  {
  }

  lemma AlarmMoves(c: Core, v: Effects, alarm: Option<Instant>, live: bool, k: Context, k': Context)
    requires Ready(c, v, k) && c.state.PastGrace()
    ensures Ready(c, v.(scheduled := alarm, live := live), k')
    ensures PanelOk(c, v) <==> PanelOk(c, v.(scheduled := alarm, live := live))
  {
    hide CurrentStages, AutoModeOk, LowOk, TableOk, HasInhibit;
  }

  /** The wake has been written or not, and the engine is about to hear. */
  function Alarmed(w: World, a: Answer): World
    requires w.queue != [] && w.queue[0].ScheduleWake?
  {
    var at := a.now + w.queue[0].after;
    var (armed, cells) := ArmRtc(w.rtc, w.cells, at, a);
    w.(queue := w.queue[1..], cells := cells,
       fx := w.fx.(scheduled := if armed then Some(at) else None, live := armed || w.fx.live),
       armedAt := if armed then Some(at) else w.armedAt)
  }

  lemma AlarmedRest(w: World, a: Answer)
    requires w.queue != [] && w.queue[0].ScheduleWake? && CountOk(w) && RestOk(w)
    ensures CountOk(Alarmed(w, a)) && RestOk(Alarmed(w, a))
  {
    hide ArmRtc, LinkOk, FeedOk;
    NoNewAlarm(w.rtc, w.cells, a.now + w.queue[0].after, a);
  }

  lemma AlarmedVirtual(w: World, a: Answer)
    requires w.queue != [] && w.queue[0].ScheduleWake? && QueueOk(w.queue)
    ensures var w2 := Alarmed(w, a);
            Virtual(w2) == After(w.fx, w.queue[1..]).(scheduled := w2.fx.scheduled, live := w2.fx.live)
  {
    hide After, ArmRtc, QueueOk;
    NoCancelBehind(w.queue);
    AlarmAfter(w.fx, Alarmed(w, a).fx.scheduled, Alarmed(w, a).fx.live, w.queue[1..]);
  }

  lemma ScheduleKeeps(w: World, a: Answer)
    requires !w.down && Inv(w) && w.queue != [] && w.queue[0].ScheduleWake?
    ensures Inv(Execute(w, a))
  {
    hide After, FeedBack, Ready, PanelOk, ArmRtc, RestOk, CountOk, QueueOk, Inv, Arrives;
    var v, w2 := After(w.fx, w.queue[1..]), Alarmed(w, a);
    ScheduleFound(w);
    AlarmedRest(w, a);
    AlarmedVirtual(w, a);
    AlarmMoves(w.core, v, w2.fx.scheduled, w2.fx.live, ContextOf(w), ContextOf(w2));
    WakeArrives(w2, ArmRtc(w.rtc, w.cells, a.now + w.queue[0].after, a).0);
    FeedBackInv(w2, WakeScheduled(ArmRtc(w.rtc, w.cells, a.now + w.queue[0].after, a).0));
  }

  /** The daemon with the ScheduleWake off its queue. */
  lemma ScheduleFound(w: World)
    requires !w.down && Inv(w) && w.queue != [] && w.queue[0].ScheduleWake?
    ensures var v := After(w.fx, w.queue[1..]);
            && w.fx.pivots == [] && v.pivots == [] && w.core.state == LongSleep(Armed)
            && Ready(w.core, v, ContextOf(w)) && v.chained && v.lastTo == w.core.state && v.answered == w.asked
            && (!w.stranded ==> PanelOk(w.core, v))
            && CountOk(w) && RestOk(w) && QueueOk(w.queue) && (forall d :: ScheduleWake(d) !in w.queue[1..])
  {
    hide After, PivotOk, Sound, Steady, PanelOk, RestOk, CountOk, QueueOk;
    HeadPivot(w);
    HeadIsArmed(w);
    WithoutPivot(w.core, After(w.fx, w.queue[1..]), ContextOf(w), w.queue[0]);
  }

  lemma WakeArrives(w: World, armed: bool)
    requires Ready(w.core, Virtual(w), ContextOf(w)) && w.core.state == LongSleep(Armed)
    requires armed ==> Virtual(w).scheduled.Some? && Virtual(w).scheduled == w.armedAt && Virtual(w).live
    ensures Arrives(w.core, Virtual(w), WakeScheduled(armed), ContextOf(w))
  {
    hide Ready, Virtual;
  }

  lemma NoCancelBehind(q: seq<Command>)
    requires q != [] && q[0].ScheduleWake? && QueueOk(q)
    ensures CancelWake !in q[1..] && QueueOk(q[1..])
  {
    assert ScheduleWake(q[0].after) in q;
  }

  lemma HeadIsArmed(w: World)
    requires w.queue != [] && w.queue[0].ScheduleWake? && PivotOk(w.core, Virtual(w), ContextOf(w), w.queue[0])
    ensures w.core.state == LongSleep(Armed)
  {
    hide After;
  }

  /** Everything that is not a pivot: the virtual world stands still. */
  lemma EffectKeeps(w: World, a: Answer)
    requires !w.down && Inv(w) && w.queue != [] && !IsPivot(w.queue[0])
    ensures Inv(Execute(w, a))
  {
    hide After, Good, PanelOk, ClearRtc, FeedOk, LinkOk;
    PopEffect(w.fx, w.queue);
    NoNewAlarm(w.rtc, w.cells, 0, a);
    var c := w.queue[0];
    EffectFrame(w, a);
    if c.ReplaceIdleStages? {
      OpsKeepAgreement(w.link, c.stages, true, w.link.display);
    } else if c.Screen? {
      OpsKeepAgreement(w.link, w.link.stages, c.on, w.link.display);
    }
  }

  lemma EffectFrame(w: World, a: Answer)
    requires w.queue != [] && !IsPivot(w.queue[0])
    ensures var w' := Execute(w, a);
            && w' == w.(queue := w.queue[1..], fx := Apply(w.fx, w.queue[0]), cells := w'.cells, missed := w'.missed, link := w'.link)
            && w'.fx.pivots == w.fx.pivots
            && (w.queue[0] != CancelWake ==> w'.cells == w.cells && w'.missed == w.missed && w'.fx.live == w.fx.live)
            && (w.queue[0] == CancelWake ==> w'.missed == (w.missed || w'.cells != map[]))
            && (if w.queue[0].ReplaceIdleStages? then w'.link == ReplaceStages(w.link, w.queue[0].stages)
                else w'.fx.stages == w.fx.stages && w'.link == (if w.queue[0].Screen? then SetScreen(w.link, w.queue[0].on) else w.link))
            && (w.queue[0].ReplaceIdleStages? ==> w'.fx.stages == w.queue[0].stages)
  {
    hide ClearRtc, ReplaceStages, SetScreen, Apply;
    ApplyParts(w.fx, w.queue[0]);
  }

  lemma ApplyParts(v: Effects, c: Command)
    requires !IsPivot(c)
    ensures Apply(v, c).pivots == v.pivots
    ensures c != CancelWake ==> Apply(v, c).live == v.live
    ensures Apply(v, c).stages == if c.ReplaceIdleStages? then c.stages else v.stages
  {
  }

  function OwedTo(replyTo: Option<RequestId>): multiset<RequestId> {
    if replyTo.Some? then multiset{replyTo.value} else multiset{}
  }

  lemma ReloadInv(w: World, a: Answer)
    requires !w.down && Inv(w) && w.queue != [] && w.queue[0].Reload?
    ensures Inv(Execute(w, a))
  {
    hide After, PivotOk, Sound, Steady, PanelOk, RestOk, CountOk, Load, ExecuteReload;
    HeadPivot(w);
    var w1 := w.(queue := w.queue[1..]);
    var replyTo := w.queue[0].replyTo;
    WithoutPivot(w.core, Virtual(w1), ContextOf(w), w.queue[0]);
    RestFrame(w, w1);
    CountFrame(w, w1);
    if Load(a.parsed).None? {
      RejectedKeeps(w1, replyTo, a);
    } else {
      ReloadedKeeps(w1, Load(a.parsed).value, replyTo, a);
    }
  }

  lemma CountFrame(w: World, w': World)
    requires CountOk(w) && w'.core == w.core && w'.count == w.count
    ensures CountOk(w')
  {
  }

  /** A rejected config, with the head already off the queue. */
  lemma RejectedKeeps(w: World, replyTo: Option<RequestId>, a: Answer)
    requires !w.down && w.fx.pivots == [] && CountOk(w) && RestOk(w) && ScreenOk(w)
    requires Load(a.parsed).None?
    requires var v := Virtual(w);
             && Good(w.core, v, ContextOf(w)) && v.pivots == [] && v.answered + OwedTo(replyTo) == w.asked
    requires forall d :: ScheduleWake(d) !in w.queue
    ensures Inv(ExecuteReload(w, replyTo, a))
  {
    hide After, Sound, PanelOk, LinkOk, FeedOk, Load;
    if replyTo.Some? {
      var m := multiset{replyTo.value};
      AnsweredAfter(w.fx, m, w.queue);
      SoundIgnoresReplies(w.core, Virtual(w), m, ContextOf(w));
    }
  }

  lemma SoundIgnoresReplies(c: Core, v: Effects, m: multiset<RequestId>, k: Context)
    ensures var u := v.(answered := v.answered + m);
            (Sound(c, u, k) <==> Sound(c, v, k)) && (PanelOk(c, u) <==> PanelOk(c, v))
  {
    hide CurrentStages, HasInhibit;
  }

  /** A new config, with the head already off the queue. */
  lemma ReloadedKeeps(w: World, config: Config, replyTo: Option<RequestId>, a: Answer)
    requires !w.down && w.fx.pivots == [] && CountOk(w) && RestOk(w) && ScreenOk(w)
    requires Load(a.parsed) == Some(config)
    requires var v := Virtual(w);
             && Good(w.core, v, ContextOf(w)) && v.pivots == [] && v.answered + OwedTo(replyTo) == w.asked
    requires forall d :: ScheduleWake(d) !in w.queue
    ensures Inv(ExecuteReload(w, replyTo, a))
  {
    hide After, Sound, PanelOk, RestOk, SetConfig, Load, RtcFor, SetDisplay;
    ReloadedRest(w, config, replyTo, a);
    ReloadedEngine(w, config, replyTo);
    SetConfigFrame(w.core, config);
    assert Virtual(ExecuteReload(w, replyTo, a)) == After(w.fx, w.queue + ReloadSends(w.core, config, replyTo));
  }

  function ReloadSends(c: Core, config: Config, replyTo: Option<RequestId>): seq<Command> {
    SetConfig(c, config).cmds + (if replyTo.Some? then [Reply(replyTo.value, Done)] else [])
  }

  lemma ReloadedRest(w: World, config: Config, replyTo: Option<RequestId>, a: Answer)
    requires RestOk(w) && Load(a.parsed) == Some(config)
    ensures RestOk(ExecuteReload(w, replyTo, a))
  {
    hide LinkOk, FeedOk, SetConfig, Load, RtcFor, SetDisplay;
    SetConfigFrame(w.core, config);
    OpsKeepAgreement(w.link, w.link.stages, true, config.display);
    SetDisplayFrame(w.link, config.display);
  }

  lemma ReloadedEngine(w: World, config: Config, replyTo: Option<RequestId>)
    requires var v := Virtual(w); Good(w.core, v, ContextOf(w)) && v.pivots == []
    ensures var c' := SetConfig(w.core, config).core;
            var v := Virtual(w);
            var v' := After(w.fx, w.queue + ReloadSends(w.core, config, replyTo));
            && Good(c', v', ContextOf(w))
            && v'.answered + OwedBy(v'.pivots) == v.answered + OwedTo(replyTo)
            && (PanelOk(w.core, v) ==> PanelOk(c', v'))
  {
    hide After, Sound, PanelOk, SetConfig;
    var v := Virtual(w);
    var o := SetConfig(w.core, config);
    SetConfigKeeps(w.core, config, v, ContextOf(w));
    SetConfigFrame(w.core, config);
    AfterConcat(w.fx, w.queue, ReloadSends(w.core, config, replyTo));
    if replyTo.Some? {
      ReplyKeeps(w.core, v, o, replyTo.value, Done, ContextOf(w));
    } else {
      assert o.cmds + [] == o.cmds;
    }
  }

  lemma SetConfigFrame(c: Core, config: Config)
    ensures var o := SetConfig(c, config);
            && o.core == c.(config := config, low := o.core.low, mode := o.core.mode)
            && (forall d :: ScheduleWake(d) !in o.cmds)
  {
  }

  lemma SetDisplayFrame(l: Link, display: Display)
    ensures SetDisplay(l, display).display == display && SetDisplay(l, display).stages == l.stages
  {
  }

  lemma PowerOffKeeps(w: World, a: Answer)
    requires !w.down && Inv(w) && w.queue != [] && w.queue[0] == PowerOff
    ensures Inv(Execute(w, a))
  {
    hide After, PivotOk, Sound, Steady, PanelOk, RestOk;
    HeadPivot(w);
    var w1 := w.(queue := w.queue[1..]);
    WithoutPivot(w.core, Virtual(w1), ContextOf(w), PowerOff);
    RestFrame(w, w1);
  }

  lemma ExecuteKeeps(w: World, a: Answer)
    requires !w.down && Inv(w) && w.queue != []
    ensures Inv(Execute(w, a))
  {
    hide Inv, After, FeedBack, ExecuteReload, ExecuteScheduleWake;
    match w.queue[0]
    case GoToSleep(_, _) => SleepKeeps(w, a);
    case ScheduleWake(_) => ScheduleKeeps(w, a);
    case Reload(_) => ReloadInv(w, a);
    case PowerOff => PowerOffKeeps(w, a);
    case Shutdown => DownIsFine(Execute(w, a));
    case _ => EffectKeeps(w, a);
  }

  lemma DownIsFine(w: World)
    requires w.down
    ensures Inv(w)
  {
  }

  // ---------------------------------------------------------------- inputs

  /** Between drains the last armed alarm no longer matters, and a state that
      does not wait does not care what logind still owes. */
  lemma ContextMoves(c: Core, v: Effects, k: Context, k': Context)
    requires Sound(c, v, k) && v.pivots == []
    ensures Ready(c, v, k')
    ensures k'.inflight >= k.inflight || !Waiting(c) ==> Sound(c, v, k')
  {
    hide CurrentStages, AutoModeOk, LowOk, TableOk, HasInhibit;
  }

  lemma ForgetsAlarm(c: Core, v: Effects, k: Context)
    requires Ready(c, v, k)
    ensures Ready(c, v.(scheduled := None), k)
    ensures PanelOk(c, v) <==> PanelOk(c, v.(scheduled := None))
  {
    hide CurrentStages, AutoModeOk, LowOk, TableOk, HasInhibit;
  }

  /** One event from outside, at a drained queue. `w` is the daemon as the
      event finds it. */
  lemma DeliverKeeps(w: World, e: Event, asked: multiset<RequestId>)
    requires !w.down && w.queue == [] && w.fx.pivots == [] && CountOk(w) && CellsOk(w) && AgentOk(w) && VerdictOk(w)
    requires FeedOk(w.feed, Learn(PowerOf(w.core), e)) && !e.HibernateAvailable?
    requires Arrives(w.core, w.fx, e, Context(w.inflight, None)) && w.fx.chained && w.fx.lastTo == w.core.state
    requires w.fx.answered == asked && asked + OwedFor(e) == w.asked
    requires !w.stranded ==> PanelOk(w.core, w.fx)
    ensures Inv(Deliver(w, e))
  {
    hide FeedBack, Arrives, Good, PanelOk, Strands, RestOk, CountOk;
    var k := Context(w.inflight, None);
    assert Virtual(w) == w.fx;
    FeedBackKeeps(w, e, k, w.asked);
    ArrivesNoRetry(w.core, w.fx, e, k);
    DeliverRest(w, e);
    hide After;
    assert Virtual(Deliver(w, e)) == Virtual(FeedBack(w, e));
  }

  lemma DeliverRest(w: World, e: Event)
    requires CountOk(w) && CycleOk(w.core) && CellsOk(w) && AgentOk(w) && VerdictOk(w)
    requires FeedOk(w.feed, Learn(PowerOf(w.core), e)) && !e.HibernateAvailable?
    ensures var w' := Deliver(w, e);
            && CountOk(w') && RestOk(w')
            && w' == FeedBack(w, e).(armedAt := None, stranded := w'.stranded)
            && w'.stranded == (w.stranded || Strands(w.core, w.fx, e))
            && w' == w.(core := w'.core, queue := w'.queue, count := w'.count, armedAt := None, stranded := w'.stranded)
  {
    hide Handle, CountFailures, AttemptFailed, LinkOk, FeedOk, Strands;
    FailuresExact(w.core, e, if w.core.state.LongSleep? then w.count else 0);
    HandleSame(w.core, e);
    CountIgnoresEntry(w.core, e, FeedBack(w, e).core.state, w.count);
  }

  /** What a drained daemon looks like to the next event. */
  lemma DrainedReady(w: World)
    requires Inv(w) && Drained(w)
    ensures w.fx.pivots == [] && Virtual(w) == w.fx && Good(w.core, w.fx, ContextOf(w))
    ensures Sound(w.core, w.fx, ContextOf(w)) && w.fx.chained && w.fx.lastTo == w.core.state
    ensures w.fx.answered == w.asked
    ensures !w.stranded ==> PanelOk(w.core, w.fx)
    ensures CountOk(w) && CellsOk(w) && AgentOk(w) && VerdictOk(w) && FeedOk(w.feed, PowerOf(w.core))
  {
    hide Sound, PanelOk, CountOk, CellsOk, AgentOk, VerdictOk, FeedOk;
  }

  lemma SignalKeeps(w: World, e: Event)
    requires Inv(w) && Drained(w) && IsSignal(e)
    ensures Inv(Receive(w, Signal(e)))
  {
    hide Inv, Sound, Deliver, CountOk, CellsOk, AgentOk, VerdictOk, FeedOk, PanelOk, After;
    DrainedReady(w);
    ContextMoves(w.core, w.fx, ContextOf(w), Context(w.inflight, None));
    assert w.asked + multiset{} == w.asked;
    DeliverKeeps(w, e, w.asked);
  }

  lemma ClientKeeps(w: World, id: RequestId, request: Request)
    requires Inv(w) && Drained(w) && id !in w.asked
    ensures Inv(Receive(w, Client(id, request)))
  {
    hide Inv, Sound, Deliver, CountOk, CellsOk, AgentOk, VerdictOk, FeedOk, PanelOk, After;
    DrainedReady(w);
    ContextMoves(w.core, w.fx, ContextOf(w), Context(w.inflight, None));
    var w1 := w.(asked := w.asked + multiset{id});
    FieldsSuffice(w, w1);
    DeliverKeeps(w1, Ipc(id, request), w.asked);
  }

  /** These parts of the invariant look at nothing else. */
  lemma FieldsSuffice(w: World, w': World)
    requires w'.core == w.core && w'.link == w.link && w'.cells == w.cells && w'.missed == w.missed
    requires w'.logind == w.logind && w'.count == w.count
    requires w'.fx.stages == w.fx.stages && w'.fx.live == w.fx.live
    ensures CountOk(w) <==> CountOk(w')
    ensures CellsOk(w) <==> CellsOk(w')
    ensures AgentOk(w) <==> AgentOk(w')
    ensures VerdictOk(w) <==> VerdictOk(w')
  {
    hide LinkOk;
  }

  lemma LogindKeeps(w: World, i: Input)
    requires Inv(w) && Drained(w) && Possible(w, i) && (i.GoesDown? || i.Refuses?)
    ensures Inv(Receive(w, i))
  {
    hide Inv, Sound, Steady, Deliver, CountOk, CellsOk, AgentOk, VerdictOk, FeedOk, PanelOk, After;
    DrainedReady(w);
    var e := if i.GoesDown? then GoingDown else i.event;
    var n := if i.GoesDown? && !i.answers then w.inflight else w.inflight - 1;
    ContextMoves(w.core, w.fx, ContextOf(w), Context(n, None));
    var w1 := w.(inflight := n);
    FieldsSuffice(w, w1);
    assert w.asked + multiset{} == w.asked;
    DeliverKeeps(w1, e, w.asked);
  }

  lemma WakeKeeps(w: World, now: Instant)
    requires Inv(w) && Drained(w)
    ensures Inv(Receive(w, WakesUp(now)))
  {
    hide Inv, Sound, Steady, Deliver, CountOk, CellsOk, AgentOk, VerdictOk, FeedOk, PanelOk, After;
    DrainedReady(w);
    var k := Context(w.inflight, None);
    ContextMoves(w.core, w.fx, ContextOf(w), k);
    ForgetsAlarm(w.core, w.fx, k);
    var (w1, e) := WakeEvent(w, now);
    FieldsSuffice(w, w1);
    assert w.asked + multiset{} == w.asked;
    DeliverKeeps(w1, e, w.asked);
  }

  lemma TimerKeeps(w: World, id: TimerId)
    requires Inv(w) && Drained(w) && id in w.fx.timers
    ensures Inv(Receive(w, TimerDue(id)))
  {
    hide Inv, Sound, Deliver, CountOk, CellsOk, AgentOk, VerdictOk, FeedOk, PanelOk, After;
    DrainedReady(w);
    var k := Context(w.inflight, None);
    ContextMoves(w.core, w.fx, ContextOf(w), k);
    var w1 := w.(fx := w.fx.(timers := w.fx.timers - {id}));
    FieldsSuffice(w, w1);
    assert w.fx.timers - {id} + {id} == w.fx.timers;
    assert w1.fx.(timers := w1.fx.timers + {id}) == w.fx;
    PanelIgnoresTimers(w.core, w.fx, w1.fx.timers);
    assert w.asked + multiset{} == w.asked;
    DeliverKeeps(w1, TimerFired(id), w.asked);
  }

  lemma PanelIgnoresTimers(c: Core, v: Effects, timers: set<TimerId>)
    ensures PanelOk(c, v) <==> PanelOk(c, v.(timers := timers))
  {
  }

  lemma PowerKeeps(w: World)
    requires Inv(w) && Drained(w) && w.feed.channel != []
    ensures Inv(Receive(w, PowerMoves))
  {
    hide Inv, Sound, Deliver, CountOk, CellsOk, AgentOk, VerdictOk, PanelOk, After;
    DrainedReady(w);
    ContextMoves(w.core, w.fx, ContextOf(w), Context(w.inflight, None));
    var w1 := w.(feed := w.feed.(channel := w.feed.channel[1..]));
    FieldsSuffice(w, w1);
    TakeKeeps(w.feed, PowerOf(w.core));
    assert w.asked + multiset{} == w.asked;
    DeliverKeeps(w1, w.feed.channel[0], w.asked);
  }

  /** The inputs that may come in mid-drain touch nothing the engine sees. */
  lemma AsideKeeps(w: World, i: Input)
    requires Inv(w) && !w.down && (i.PowerRead? || i.AgentConnects? || i.AgentLeaves? || i.AgentSays? || i.AlarmRings?)
    ensures Inv(Receive(w, i))
  {
    hide EngineOk, CountOk;
    var w' := Receive(w, i);
    assert EngineOk(w') && CountOk(w') by { EngineFrame(w, w'); }
    match i
    case PowerRead(read) => ReadKeeps(w.feed, PowerOf(w.core), read);
    case AgentConnects => StepKeeps(w.link, DoRegister);
    case AgentLeaves(id) => StepKeeps(w.link, DoUnregister(id));
    case AgentSays(id, said) => StepKeeps(w.link, DoNote(id, said));
    case AlarmRings(d) =>
  }

  lemma EngineFrame(w: World, w': World)
    requires EngineOk(w) && CountOk(w) && w' == w.(feed := w'.feed, link := w'.link, cells := w'.cells)
    ensures EngineOk(w') && CountOk(w')
  {
    hide Good, PanelOk, After;
  }

  lemma ReceiveKeeps(w: World, i: Input)
    requires Inv(w) && !w.down && Possible(w, i)
    ensures Inv(Receive(w, i))
  {
    hide Inv;
    match i
    case Signal(e) => SignalKeeps(w, e);
    case GoesDown(_) => LogindKeeps(w, i);
    case WakesUp(now) => WakeKeeps(w, now);
    case Refuses(_) => LogindKeeps(w, i);
    case TimerDue(id) => TimerKeeps(w, id);
    case Client(id, request) => ClientKeeps(w, id, request);
    case PowerMoves => PowerKeeps(w);
    case _ => AsideKeeps(w, i);
  }

  // --------------------------------------------------------------- startup

  lemma StartCoreOk(b: Boot)
    ensures var c := StartCore(b);
            && CycleOk(c) && AutoModeOk(c) && LowOk(c) && c.inhibits == [] && c.state == Active && !c.pendingSleep
            && c.config == b.config && PowerOf(c) == b.power && c.sleepFailures == 0 && c.suspendFrom == Active
  {
  }

  lemma StartOutShape(b: Boot)
    ensures var c := StartCore(b);
            var c' := c.(hibernateAvailable := b.logind == Some(true));
            StartOut(b) ==
              if b.config.server.enabled && !b.power.ac && b.wasInCycle
              then Out(c'.(state := LongSleep(Checking)),
                       ModeCommands(c) + [] + ([ReplaceIdleStages(NO_STAGES)] + [StartTimer(AwakeWindow, b.config.server.awakeWindow)]))
              else Out(c', ModeCommands(c) + [])
  {
    hide ModeCommands, StartCore;
    StartCoreOk(b);
    var c := StartCore(b);
    assert Announce(c.state, c.(hibernateAvailable := b.logind == Some(true))) == [];
    assert Handle(c, HibernateAvailable(b.logind == Some(true))).cmds == [] + [];
  }

  lemma StartEffect(b: Boot)
    ensures var v := Start(b).fx;
            var resumed := b.config.server.enabled && !b.power.ac && b.wasInCycle;
            Virtual(Start(b)) ==
              if resumed then v.(stages := NO_STAGES, timers := {AwakeWindow})
              else v.(stages := CurrentStages(StartCore(b)))
  {
    hide ModeCommands, StartCore, StartOut, After, CurrentStages;
    StartOutShape(b);
    StartCoreOk(b);
    var c := StartCore(b);
    var v := Start(b).fx;
    ModeCommandsEffect(c, v);
    var off, window := [ReplaceIdleStages(NO_STAGES)], [StartTimer(AwakeWindow, b.config.server.awakeWindow)];
    AfterConcat(v, ModeCommands(c), []);
    AfterNone(After(v, ModeCommands(c)));
    AfterConcat(v, ModeCommands(c) + [], off + window);
    AfterLast(After(v, ModeCommands(c)), off, window[0]);
    AfterOne(After(v, ModeCommands(c)), off[0]);
  }

  lemma StartEngineOk(b: Boot)
    ensures Good(Start(b).core, Virtual(Start(b)), ContextOf(Start(b)))
    ensures PanelOk(Start(b).core, Virtual(Start(b))) && RepliesOk(Start(b))
  {
    hide ModeCommands, StartCore, StartOut, After, CurrentStages, AutoModeOk, LowOk;
    StartOutShape(b);
    StartEffect(b);
    StartCoreOk(b);
    ModeFactsDepend(StartCore(b), Start(b).core);
  }

  lemma StartQueueOk(b: Boot)
    ensures QueueOk(Start(b).queue)
  {
    hide StartCore, StartOut, WantedStages;
    StartOutShape(b);
    ModeCommandsAre(StartCore(b));
  }

  /** It holds when the daemon starts, in the middle of a cycle or not. */
  lemma StartKeeps(b: Boot)
    ensures Inv(Start(b))
  {
    hide Good, PanelOk, RepliesOk, QueueOk, StartOut, StartCore, After, ModeCommands;
    StartEngineOk(b);
    StartQueueOk(b);
    StartOutShape(b);
    StartCoreOk(b);
  }
}
