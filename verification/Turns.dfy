/** One move of the daemon, seen from the engine: the event it feeds, the
    commands that are sent, and what of the effects it changes. Every statement
    about a history of moves is proved from these. */
module Turns {
  import opened Types
  import opened Transition
  import opened Effects
  import opened Invariants
  import opened Discipline
  import A = Agent
  import S = Supply
  import opened Wake
  import opened World
  import opened Safety

  /** The event the engine is given in this move, if any. */
  function Fed(w: World, m: Move): Option<Event> {
    match m
    case Drain(a) =>
      if w.queue == [] then None
      else if w.queue[0].GoToSleep? && !(w.logind.Some? && a.accepted) then Some(SleepFailed)
      else if w.queue[0].ScheduleWake? then Some(WakeScheduled(ArmRtc(w.rtc, w.cells, a.now + w.queue[0].after, a).0))
      else None
    case Take(i) =>
      match i
      case Signal(e) => Some(e)
      case GoesDown(_) => Some(GoingDown)
      case WakesUp(now) => Some(WakeEvent(w, now).1)
      case Refuses(e) => Some(e)
      case TimerDue(id) => Some(TimerFired(id))
      case Client(id, request) => Some(Ipc(id, request))
      case PowerMoves => if w.feed.channel == [] then None else Some(w.feed.channel[0])
      case _ => None
  }

  /** The config the engine is given in this move, if any. */
  function Loaded(w: World, m: Move): Option<Config> {
    if m.Drain? && w.queue != [] && w.queue[0].Reload? then Load(m.answer.parsed) else None
  }

  /** The commands the engine sends in this move. */
  function Sent(w: World, m: Move): seq<Command> {
    if Fed(w, m).Some? then Handle(w.core, Fed(w, m).value).cmds
    else if Loaded(w, m).Some? then ReloadSends(w.core, Loaded(w, m).value, w.queue[0].replyTo)
    else []
  }

  /** The daemon as the event finds it. */
  function Found(w: World, m: Move): World {
    match m
    case Drain(a) =>
      if w.queue == [] then w
      else if w.queue[0].ScheduleWake? then Alarmed(w, a)
      else w.(queue := w.queue[1..])
    case Take(i) =>
      match i
      case GoesDown(answers) => w.(inflight := if answers && w.inflight > 0 then w.inflight - 1 else w.inflight)
      case WakesUp(now) => WakeEvent(w, now).0
      case Refuses(_) => w.(inflight := if w.inflight > 0 then w.inflight - 1 else 0)
      case TimerDue(id) => w.(fx := w.fx.(timers := w.fx.timers - {id}))
      case Client(id, _) => w.(asked := w.asked + multiset{id})
      case PowerMoves => if w.feed.channel == [] then w else w.(feed := w.feed.(channel := w.feed.channel[1..]))
      case _ => w
  }

  lemma FedIsFeedBack(w: World, m: Move)
    requires Legal(w, m) && Fed(w, m).Some?
    ensures var f := FeedBack(Found(w, m), Fed(w, m).value);
            Perform(w, m) == f.(armedAt := Perform(w, m).armedAt, stranded := Perform(w, m).stranded)
  {
    match m
    case Drain(a) => DrainIsFeedBack(w, a);
    case Take(i) => TakeIsFeedBack(w, i);
  }

  lemma DrainIsFeedBack(w: World, a: Answer)
    requires w.queue != [] && Fed(w, Drain(a)).Some?
    ensures Execute(w, a) == FeedBack(Found(w, Drain(a)), Fed(w, Drain(a)).value)
  {
    hide FeedBack, ArmRtc;
  }

  lemma TakeIsFeedBack(w: World, i: Input)
    requires Possible(w, i) && Fed(w, Take(i)).Some?
    ensures Receive(w, i) == Deliver(Found(w, Take(i)), Fed(w, Take(i)).value)
  {
    hide Deliver, WakeEvent;
  }

  // ------------------------------------------------------------ what it does

  lemma FeedBackIs(w: World, e: Event)
    ensures var f := FeedBack(w, e);
            f == w.(core := Handle(w.core, e).core, queue := w.queue + Handle(w.core, e).cmds, count := f.count)
  {
    hide Handle, CountFailures;
  }

  lemma FoundCore(w: World, m: Move)
    ensures Found(w, m).core == w.core
  {
    hide ArmRtc;
  }

  /** All the event finds changed, besides the head of the queue, is the timer
      that went off and what is known of the alarm. */
  lemma FoundEffects(w: World, m: Move)
    requires Inv(w) && !w.down && Legal(w, m) && Fed(w, m).Some?
    ensures var e, v, u := Fed(w, m).value, Virtual(Found(w, m)), Virtual(w);
            && v == u.(pivots := [], scheduled := v.scheduled, live := v.live,
                       timers := if e.TimerFired? then u.timers - {e.timer} else u.timers)
            && (m.Drain? ==> e == SleepFailed || e.WakeScheduled?)
  {
    match m
    case Drain(a) => DrainFound(w, a);
    case Take(i) => TakeFound(w, i);
  }

  lemma DrainFound(w: World, a: Answer)
    requires Inv(w) && !w.down && w.queue != [] && Fed(w, Drain(a)).Some?
    ensures var e, v, u := Fed(w, Drain(a)).value, Virtual(Found(w, Drain(a))), Virtual(w);
            && v == u.(pivots := [], scheduled := v.scheduled, live := v.live)
            && (e == SleepFailed || e.WakeScheduled?)
  {
    hide After, ArmRtc, Good, PanelOk, PivotOk, RestOk, CountOk;
    HeadPivot(w);
    if w.queue[0].ScheduleWake? {
      AlarmedVirtual(w, a);
    }
  }

  lemma TakeFound(w: World, i: Input)
    requires Inv(w) && !w.down && Possible(w, i) && Fed(w, Take(i)).Some?
    ensures var e, v, u := Fed(w, Take(i)).value, Found(w, Take(i)).fx, w.fx;
            && w.queue == Found(w, Take(i)).queue == []
            && Virtual(w) == w.fx && Virtual(Found(w, Take(i))) == Found(w, Take(i)).fx
            && v == u.(pivots := [], scheduled := v.scheduled,
                       timers := if e.TimerFired? then u.timers - {e.timer} else u.timers)
  {
    hide Good, PanelOk, RestOk, CountOk, ClassifyWake, S.FeedOk;
    if i.PowerMoves? {
      PowerEvents(w);
    }
  }

  lemma PowerEvents(w: World)
    requires Inv(w) && !w.down && w.feed.channel != []
    ensures w.feed.channel[0].AcChanged? || w.feed.channel[0].Battery?
  {
    hide EngineOk, CountOk, S.LearnAll;
    assert w.feed.channel[0] in w.feed.channel;
  }

  lemma NoRetry(w: World)
    requires Inv(w) && !w.down
    ensures NoRetryInCycle(w.core)
  {
    hide After, TableOk, TimersOk, ExpiriesOk, AlarmOk, StagesOk, PivotsOk, PanelOk, RestOk, CountOk;
  }

  /** A move that feeds the engine an event. */
  lemma FedTurn(w: World, m: Move)
    requires Inv(w) && !w.down && Legal(w, m) && Fed(w, m).Some?
    ensures var e, w' := Fed(w, m).value, Perform(w, m);
            && w'.core == Handle(w.core, e).core && Sent(w, m) == Handle(w.core, e).cmds
            && Virtual(w') == After(Virtual(Found(w, m)), Sent(w, m))
            && w'.inflight == Found(w, m).inflight && w'.down == w.down
            && w'.queue == Found(w, m).queue + Sent(w, m)
            && w'.fx == Found(w, m).fx
  {
    hide Inv, Perform, Legal, Handle, After, Found;
    var e, f := Fed(w, m).value, Found(w, m);
    FedIsFeedBack(w, m);
    FeedBackIs(f, e);
    FoundCore(w, m);
    FoundUp(w, m);
    AfterConcat(f.fx, f.queue, Handle(w.core, e).cmds);
  }

  lemma FoundUp(w: World, m: Move)
    ensures Found(w, m).down == w.down
  {
    hide ArmRtc;
  }

  /** A move that feeds it a config. */
  lemma LoadedTurn(w: World, m: Move)
    requires Inv(w) && !w.down && Legal(w, m) && Loaded(w, m).Some?
    ensures var config, w' := Loaded(w, m).value, Perform(w, m);
            && Fed(w, m).None? && w'.core == SetConfig(w.core, config).core
            && Sent(w, m) == SetConfig(w.core, config).cmds
                             + (if w.queue[0].replyTo.Some? then [Reply(w.queue[0].replyTo.value, Done)] else [])
            && Virtual(w') == After(Virtual(w).(pivots := []), Sent(w, m))
            && w'.inflight == w.inflight && w'.down == w.down
  {
    hide After, Good, PanelOk, PivotOk, RestOk, CountOk, SetConfig, Load, RtcFor, A.SetDisplay;
    HeadPivot(w);
    AfterConcat(w.fx, w.queue[1..], Sent(w, m));
  }

  /** Any other move takes something off the queue, or touches nothing the
      engine sees. */
  lemma PlainTurn(w: World, m: Move)
    requires Inv(w) && !w.down && Legal(w, m) && Fed(w, m).None? && Loaded(w, m).None?
    ensures var w', u' := Perform(w, m), Virtual(Perform(w, m));
            && w'.core == w.core && Sent(w, m) == []
            && u' == Virtual(w).(pivots := u'.pivots, answered := u'.answered)
            && u'.pivots == (if m.Drain? && IsPivot(w.queue[0]) then [] else Virtual(w).pivots)
            && w'.inflight == w.inflight + (if m.Drain? && w.queue[0].GoToSleep? then 1 else 0)
  {
    match m
    case Drain(a) => if IsPivot(w.queue[0]) { PlainPivot(w, a); } else { PlainEffect(w, a); }
    case Take(i) => PlainTake(w, i);
  }

  lemma PlainEffect(w: World, a: Answer)
    requires w.queue != [] && !IsPivot(w.queue[0])
    ensures var w' := Execute(w, a);
            w'.core == w.core && Virtual(w') == Virtual(w) && w'.inflight == w.inflight && w'.rtc == w.rtc
  {
    hide After, Execute, Apply;
    EffectFrame(w, a);
    PopEffect(w.fx, w.queue);
  }

  lemma PlainPivot(w: World, a: Answer)
    requires Inv(w) && !w.down && w.queue != [] && IsPivot(w.queue[0])
    requires Fed(w, Drain(a)).None? && Loaded(w, Drain(a)).None?
    ensures var w', u' := Execute(w, a), Virtual(Execute(w, a));
            && w'.core == w.core && u' == Virtual(w).(pivots := [], answered := u'.answered)
            && w'.inflight == w.inflight + (if w.queue[0].GoToSleep? then 1 else 0)
  {
    hide After, Inv, IsPivot, Load, ArmRtc;
    HeadPivot(w);
    assert !w.queue[0].ScheduleWake?;
    if w.queue[0].Reload? {
      RejectedReload(w, a);
    }
  }

  lemma RejectedReload(w: World, a: Answer)
    requires w.queue != [] && w.queue[0].Reload? && Load(a.parsed).None?
    ensures var w', u := Execute(w, a), After(w.fx, w.queue[1..]);
            && w'.core == w.core && w'.inflight == w.inflight && Virtual(w') == u.(answered := Virtual(w').answered)
  {
    hide After, Load;
    if w.queue[0].replyTo.Some? {
      AnsweredAfter(w.fx, multiset{w.queue[0].replyTo.value}, w.queue[1..]);
    }
  }

  lemma PlainTake(w: World, i: Input)
    requires Possible(w, i) && Fed(w, Take(i)).None?
    ensures var w' := Receive(w, i);
            && w' == w.(feed := w'.feed, link := w'.link, cells := w'.cells) && Virtual(w') == Virtual(w)
  {
    hide Deliver, After, A.Register, A.Unregister, A.Note;
  }

  /** What is still to be executed: the rest, and then what has just been sent. */
  lemma QueueTurn(w: World, m: Move)
    requires Legal(w, m)
    ensures Perform(w, m).queue == (if m.Drain? then w.queue[1..] else w.queue) + Sent(w, m)
  {
    var rest := if m.Drain? then w.queue[1..] else w.queue;
    if Fed(w, m).Some? {
      hide Perform, Handle, Found;
      FedIsFeedBack(w, m);
      FeedBackIs(Found(w, m), Fed(w, m).value);
      FoundQueue(w, m);
      FoundCore(w, m);
    } else if Loaded(w, m).Some? {
      hide SetConfig, Load, RtcFor, A.SetDisplay;
    } else {
      assert rest + [] == rest;
      PlainQueue(w, m);
    }
  }

  lemma FoundQueue(w: World, m: Move)
    requires Legal(w, m)
    ensures Found(w, m).queue == if m.Drain? then w.queue[1..] else w.queue
  {
    hide ArmRtc, WakeEvent;
    if m.Take? && m.input.WakesUp? {
      WakeFinds(w, m.input.now);
    }
  }

  lemma WakeFinds(w: World, now: Instant)
    ensures WakeEvent(w, now).0 == w.(fx := WakeEvent(w, now).0.fx)
  {
    hide ClassifyWake;
  }

  lemma PlainQueue(w: World, m: Move)
    requires Legal(w, m) && Fed(w, m).None? && Loaded(w, m).None?
    ensures Perform(w, m).queue == if m.Drain? then w.queue[1..] else w.queue
  {
    hide Load, ArmRtc, ClearRtc, Apply, A.Register, A.Unregister, A.Note, Deliver, A.SetScreen, A.ReplaceStages;
  }

  // -------------------------------------------------------------- histories

  type Mark = (World, Move) -> bool

  /** Some move before `k` was `begin`, and none since was `end`. */
  ghost predicate Since(begin: Mark, end: Mark, ws: seq<World>, ms: seq<Move>, k: nat)
    requires k <= |ms| <= |ws|
  {
    exists j :: 0 <= j < k && BeganAt(begin, end, ws, ms, j, k)
  }

  ghost predicate BeganAt(begin: Mark, end: Mark, ws: seq<World>, ms: seq<Move>, j: nat, k: nat)
    requires j < k <= |ms| <= |ws|
  {
    begin(ws[j], ms[j]) && forall i :: j < i < k ==> !end(ws[i], ms[i])
  }

  lemma SinceStep(begin: Mark, end: Mark, ws: seq<World>, ms: seq<Move>, k: nat)
    requires k < |ms| <= |ws|
    ensures Since(begin, end, ws, ms, k + 1) <==>
              begin(ws[k], ms[k]) || (Since(begin, end, ws, ms, k) && !end(ws[k], ms[k]))
  {
    if begin(ws[k], ms[k]) {
      assert BeganAt(begin, end, ws, ms, k, k + 1);
    }
    if Since(begin, end, ws, ms, k) && !end(ws[k], ms[k]) {
      var j :| 0 <= j < k && BeganAt(begin, end, ws, ms, j, k);
      assert BeganAt(begin, end, ws, ms, j, k + 1);
    }
    if Since(begin, end, ws, ms, k + 1) {
      var j :| 0 <= j < k + 1 && BeganAt(begin, end, ws, ms, j, k + 1);
      if j < k {
        assert BeganAt(begin, end, ws, ms, j, k);
        assert !end(ws[k], ms[k]);
      }
    }
  }

  /** What every move switches on and off exactly by these marks is on exactly
      since one of them. */
  lemma {:induction false} SinceExactly(p: World -> bool, begin: Mark, end: Mark, ws: seq<World>, ms: seq<Move>, k: nat)
    requires k <= |ms| < |ws| && !p(ws[0])
    requires forall j :: 0 <= j < k ==> (p(ws[j + 1]) <==> begin(ws[j], ms[j]) || (p(ws[j]) && !end(ws[j], ms[j])))
    ensures p(ws[k]) <==> Since(begin, end, ws, ms, k)
  {
    if k > 0 {
      SinceExactly(p, begin, end, ws, ms, k - 1);
      SinceStep(begin, end, ws, ms, k - 1);
      assert p(ws[k - 1 + 1]) <==> begin(ws[k - 1], ms[k - 1]) || (p(ws[k - 1]) && !end(ws[k - 1], ms[k - 1]));
    }
  }
}
