/** When exactly the panel is dark in `Active`: since AC ended a Grace with a
    dark panel, and until something lights it again. */
module Lights {
  import opened Types
  import opened Transition
  import opened Effects
  import opened Invariants
  import opened Discipline
  import opened Choices
  import opened Outcomes
  import opened Sends
  import opened Fields
  import A = Agent
  import S = Supply
  import opened Wake
  import opened World
  import opened Safety
  import opened Turns
  import opened Histories
  import opened Runs

  /** AC ends a Grace whose panel is dimmed; nothing is sent to the panel. */
  predicate StrandsDim(w: World, m: Move) {
    StrandingMove(w, m) && w.fx.dimmed
  }

  predicate StrandsScreen(w: World, m: Move) {
    StrandingMove(w, m) && w.fx.screenOff
  }

  predicate SendsUndim(w: World, m: Move) {
    Fed(w, m).Some? && Undims(w.core, Fed(w, m).value)
  }

  predicate SendsScreenOn(w: World, m: Move) {
    Fed(w, m).Some? && TurnsOn(w.core, Fed(w, m).value)
  }

  /** `dim` and `off`: the panel has been left dimmed, or off, behind the
      daemon's back. Without that it is as the state promises. */
  ghost predicate LightsOk(w: World, dim: bool, off: bool) {
    var v := Virtual(w);
    && (dim ==> v.dimmed) && (off ==> v.screenOff)
    && PanelOk(w.core, v.(dimmed := v.dimmed && !dim, screenOff := v.screenOff && !off))
  }

  ghost predicate LightsStep(w: World, m: Move, dim: bool, off: bool)
    requires Legal(w, m)
  {
    LightsOk(Perform(w, m), StrandsDim(w, m) || (dim && !SendsUndim(w, m)), StrandsScreen(w, m) || (off && !SendsScreenOn(w, m)))
  }

  // ------------------------------------------------------- commands and lamps

  lemma {:induction false} DimAfter(v: Effects, q: seq<Command>)
    requires Undim in q ==> !(exists p :: Dim(p) in q)
    ensures After(v, q).dimmed ==
              if Undim in q then false else if exists p :: Dim(p) in q then true else v.dimmed
    decreases |q|
  {
    if q != [] {
      assert forall cmd :: cmd in q <==> cmd == q[0] || cmd in q[1..];
      assert q[0].Dim? ==> Dim(q[0].percent) in q;
      DimAfter(Apply(v, q[0]), q[1..]);
      if p :| Dim(p) in q && !(exists r :: Dim(r) in q[1..]) {
        assert q[0] == Dim(p);
      }
    }
  }

  lemma {:induction false} ScreenAfter(v: Effects, q: seq<Command>)
    requires Screen(true) !in q || Screen(false) !in q
    ensures After(v, q).screenOff == if Screen(true) in q then false else if Screen(false) in q then true else v.screenOff
    decreases |q|
  {
    if q != [] {
      assert forall cmd :: cmd in q <==> cmd == q[0] || cmd in q[1..];
      ScreenAfter(Apply(v, q[0]), q[1..]);
    }
  }

  /** No event both lights and darkens. */
  lemma LampsAgree(c: Core, e: Event)
    requires NoRetryInCycle(c)
    ensures var q := Handle(c, e).cmds;
            && (Undim in q ==> !(exists p :: Dim(p) in q))
            && (Screen(true) !in q || Screen(false) !in q)
  {
    hide Handle;
    EveryCommandLicensed(c, e);
    var o := Handle(c, e);
    assert Undim in o.cmds ==> Licensed(c.state, e, o.core, Undim);
    assert Screen(true) in o.cmds ==> Licensed(c.state, e, o.core, Screen(true));
    assert Screen(false) in o.cmds ==> Licensed(c.state, e, o.core, Screen(false));
    if p :| Dim(p) in o.cmds {
      assert Licensed(c.state, e, o.core, Dim(p));
    }
  }

  // --------------------------------------------------------- the easy moves

  lemma LightsPlain(w: World, m: Move, dim: bool, off: bool)
    requires Inv(w) && Legal(w, m) && Fed(w, m).None? && Loaded(w, m).None? && LightsOk(w, dim, off)
    ensures LightsStep(w, m, dim, off)
  {
    hide Inv, Perform, Virtual, Strands;
    NotDown(w, m);
    PlainTurn(w, m);
  }

  lemma LightsLoaded(w: World, m: Move, dim: bool, off: bool)
    requires Inv(w) && Legal(w, m) && Loaded(w, m).Some? && LightsOk(w, dim, off)
    ensures LightsStep(w, m, dim, off)
  {
    hide Inv, Perform, Virtual, Strands, SetConfig, Load, After;
    NotDown(w, m);
    LoadedTurn(w, m);
    SetConfigFrame(w.core, Loaded(w, m).value);
    ConfigPursuesNothing(w.core, Loaded(w, m).value);
    DimAfter(Virtual(w).(pivots := []), Sent(w, m));
    ScreenAfter(Virtual(w).(pivots := []), Sent(w, m));
  }

  // ------------------------------------------------------- events in mid-drain

  lemma LightsDrained(w: World, m: Move, dim: bool, off: bool)
    requires Inv(w) && Legal(w, m) && m.Drain? && Fed(w, m).Some? && LightsOk(w, dim, off)
    ensures LightsStep(w, m, dim, off)
  {
    hide Inv, Perform, Virtual, Strands, After, Handle, Found, Legal, NoRetryInCycle, Undims, TurnsOn;
    var e, f := Fed(w, m).value, Found(w, m);
    NotDown(w, m);
    FedTurn(w, m);
    FoundEffects(w, m);
    NoRetry(w);
    LampsAgree(w.core, e);
    LightsExactly(w.core, e);
    DimAfter(Virtual(f), Sent(w, m));
    ScreenAfter(Virtual(f), Sent(w, m));
    HeadInCycle(w, m);
    AnswerLeads(w.core, e);
  }

  lemma HeadInCycle(w: World, m: Move)
    requires Inv(w) && Legal(w, m) && m.Drain? && Fed(w, m).Some?
    ensures w.core.state == Suspending || w.core.state.LongSleep?
    ensures Fed(w, m).value == SleepFailed || (Fed(w, m).value.WakeScheduled? && w.core.state == LongSleep(Armed))
    ensures !StrandingMove(w, m)
  {
    hide Inv, After, Perform, Blocked, BatteryCritical, Strands;
    NotDown(w, m);
    HeadPivot(w);
  }

  /** An answer that leads to `Active` lights the panel; none leads elsewhere
      outside the cycle. */
  lemma AnswerLeads(c: Core, e: Event)
    requires e == SleepFailed || (e.WakeScheduled? && c.state == LongSleep(Armed))
    requires (c.state == Suspending || c.state.LongSleep?) && NoRetryInCycle(c)
    ensures var to := Handle(c, e).core.state; to.LongSleep? || (to == Active && Undims(c, e) && TurnsOn(c, e))
  {
    hide Handle, Blocked;
    FollowsTheTable(c, e);
  }

  // ---------------------------------------------------------- events taken

  /** The same daemon with a panel that was never left dark. */
  function Shade(w: World, dim: bool, off: bool): World {
    w.(fx := w.fx.(dimmed := w.fx.dimmed && !dim, screenOff := w.fx.screenOff && !off), stranded := false)
  }

  lemma ShadeKeeps(w: World, dim: bool, off: bool)
    requires Inv(w) && Drained(w) && PanelOk(w.core, Shade(w, dim, off).fx)
    ensures Inv(Shade(w, dim, off))
  {
    hide PanelOk, S.FeedOk, A.LinkOk;
    DrainedReady(w);
    GoodWithoutPanel(w.core, w.fx, Shade(w, dim, off).fx, ContextOf(w));
  }

  lemma GoodWithoutPanel(c: Core, v: Effects, u: Effects, k: Context)
    requires Good(c, v, k) && u == v.(dimmed := u.dimmed, screenOff := u.screenOff)
    ensures Good(c, u, k)
  {
    hide CurrentStages, AutoModeOk, LowOk, TableOk, CycleOk, HasInhibit;
  }

  lemma ShadeTurn(w: World, m: Move, dim: bool, off: bool)
    requires Inv(w) && Legal(w, m) && m.Take? && Fed(w, m).Some? && LightsOk(w, dim, off)
    requires !Strands(w.core, w.fx, Fed(w, m).value)
    ensures var w0 := Shade(w, dim, off);
            && Perform(w, m).core == Handle(w.core, Fed(w, m).value).core
            && Legal(w0, m) && PanelOk(Perform(w, m).core, After(Found(w0, m).fx, Sent(w, m)))
  {
    hide Receive, After, Handle, Found, PanelOk, Inv;
    var w0 := Shade(w, dim, off);
    NotDown(w, m);
    TakenIsDrained(w, m);
    ShadeKeeps(w, dim, off);
    ShadeFed(w, m, dim, off);
    FedTurn(w, m);
    FedTurn(w0, m);
    ReceiveKeeps(w0, m.input);
    TakeFound(w0, m.input);
    ShadeStays(w, m, dim, off);
    ShownWhenUp(Perform(w0, m));
  }

  lemma TakenIsDrained(w: World, m: Move)
    requires Inv(w) && Legal(w, m) && m.Take? && Fed(w, m).Some?
    ensures Drained(w) && Virtual(w) == w.fx
  {
    hide Inv;
    NotDown(w, m);
    TakeFound(w, m.input);
  }

  lemma ShownWhenUp(w: World)
    requires Inv(w) && !w.down && !w.stranded
    ensures PanelOk(w.core, Virtual(w))
  {
    hide PanelOk, Virtual;
  }

  /** A wake looks at the alarm only. */
  lemma ShadeWakes(w: World, now: Instant, dim: bool, off: bool)
    ensures var (w1, e), (w2, e') := WakeEvent(w, now), WakeEvent(Shade(w, dim, off), now);
            && e' == e && w2 == Shade(w1, dim, off) && w1.stranded == w.stranded
            && w1.fx.dimmed == w.fx.dimmed && w1.fx.screenOff == w.fx.screenOff && w1.core == w.core
  {
    hide ClassifyWake;
  }

  lemma ShadeFed(w: World, m: Move, dim: bool, off: bool)
    requires Legal(w, m) && m.Take? && Fed(w, m).Some?
    ensures Legal(Shade(w, dim, off), m) && Fed(Shade(w, dim, off), m) == Fed(w, m)
  {
    hide WakeEvent;
    if m.input.WakesUp? {
      ShadeWakes(w, m.input.now, dim, off);
    }
  }

  lemma FoundLamps(w: World, m: Move)
    requires m.Take?
    ensures var f := Found(w, m);
            f.core == w.core && f.stranded == w.stranded && f.fx.dimmed == w.fx.dimmed && f.fx.screenOff == w.fx.screenOff
  {
    hide WakeEvent, ArmRtc;
    if m.input.WakesUp? {
      ShadeWakes(w, m.input.now, false, false);
    }
  }

  lemma ShadeStays(w: World, m: Move, dim: bool, off: bool)
    requires Legal(w, m) && m.Take? && Fed(w, m).Some? && Legal(Shade(w, dim, off), m)
    requires Fed(Shade(w, dim, off), m) == Fed(w, m) && !Strands(w.core, w.fx, Fed(w, m).value)
    ensures !Perform(Shade(w, dim, off), m).stranded
  {
    hide Deliver, Found, Receive;
    var w0 := Shade(w, dim, off);
    TakeIsFeedBack(w0, m.input);
    DeliverStrands(Found(w0, m), Fed(w, m).value);
    FoundLamps(w0, m);
  }

  lemma DeliverStrands(w: World, e: Event)
    ensures Deliver(w, e).stranded == (w.stranded || Strands(w.core, w.fx, e))
  {
    hide Handle, CountFailures, Strands;
  }

  lemma ShadeLamps(w: World, dim: bool, off: bool)
    ensures var u := Shade(w, dim, off).fx;
            u.dimmed == (w.fx.dimmed && !dim) && u.screenOff == (w.fx.screenOff && !off)
  {
  }

  lemma LightsTaken(w: World, m: Move, dim: bool, off: bool)
    requires Inv(w) && Legal(w, m) && m.Take? && Fed(w, m).Some? && LightsOk(w, dim, off)
    ensures LightsStep(w, m, dim, off)
  {
    hide Inv, Perform, Virtual, Strands, After, Handle, Found, NoRetryInCycle, Legal, Shade, Undims, TurnsOn;
    var e := Fed(w, m).value;
    NotDown(w, m);
    TakenIsDrained(w, m);
    FedTurn(w, m);
    FoundEffects(w, m);
    NoRetry(w);
    LampsAgree(w.core, e);
    LightsExactly(w.core, e);
    DimAfter(Virtual(Found(w, m)), Sent(w, m));
    ScreenAfter(Virtual(Found(w, m)), Sent(w, m));
    StrandsByPower(w, m);
    if Strands(w.core, w.fx, e) {
      StrandingIsSilent(w.core, w.fx, e);
    } else {
      ShadeTurn(w, m, dim, off);
      FoundLamps(Shade(w, dim, off), m);
      ShadeLamps(w, dim, off);
      DimAfter(Found(Shade(w, dim, off), m).fx, Sent(w, m));
      ScreenAfter(Found(Shade(w, dim, off), m).fx, Sent(w, m));
    }
  }

  lemma StrandsByPower(w: World, m: Move)
    requires Inv(w) && Legal(w, m) && m.Take? && Fed(w, m).Some?
    ensures StrandingMove(w, m) <==> Strands(w.core, w.fx, Fed(w, m).value)
  {
    hide Inv, ClassifyWake;
  }

  lemma LightsTurn(w: World, m: Move, dim: bool, off: bool)
    requires Inv(w) && Legal(w, m) && LightsOk(w, dim, off)
    ensures LightsStep(w, m, dim, off)
  {
    hide Inv, Legal, LightsOk, LightsStep;
    if Fed(w, m).Some? {
      if m.Drain? {
        LightsDrained(w, m, dim, off);
      } else {
        LightsTaken(w, m, dim, off);
      }
    } else if Loaded(w, m).Some? {
      LightsLoaded(w, m, dim, off);
    } else {
      LightsPlain(w, m, dim, off);
    }
  }

  // ------------------------------------------------------------------- runs

  lemma {:induction false} LightsAlong(b: Boot, ws: seq<World>, ms: seq<Move>, k: nat)
    requires IsRun(b, ws, ms) && k < |ws|
    ensures LightsOk(ws[k], Since(StrandsDim, SendsUndim, ws, ms, k), Since(StrandsScreen, SendsScreenOn, ws, ms, k))
  {
    hide Inv, LightsOk, Perform, Legal, Since, StrandsDim, StrandsScreen, SendsUndim, SendsScreenOn, Start;
    if k == 0 {
      StartsLit(b);
      NeverSince(ws, ms);
    } else {
      LightsAlong(b, ws, ms, k - 1);
      RunKeepsInv(b, ws, ms, k - 1);
      assert Legal(ws[k - 1], ms[k - 1]) && ws[k] == Perform(ws[k - 1], ms[k - 1]);
      LightsTurn(ws[k - 1], ms[k - 1], Since(StrandsDim, SendsUndim, ws, ms, k - 1), Since(StrandsScreen, SendsScreenOn, ws, ms, k - 1));
      SinceStep(StrandsDim, SendsUndim, ws, ms, k - 1);
      SinceStep(StrandsScreen, SendsScreenOn, ws, ms, k - 1);
    }
  }

  lemma NeverSince(ws: seq<World>, ms: seq<Move>)
    requires |ms| <= |ws|
    ensures !Since(StrandsDim, SendsUndim, ws, ms, 0) && !Since(StrandsScreen, SendsScreenOn, ws, ms, 0)
  {
  }

  lemma StartsLit(b: Boot)
    ensures LightsOk(Start(b), false, false)
  {
    hide ModeCommands, StartCore, StartOut, After, CurrentStages;
    StartEffect(b);
  }

  /** In `Active`, drained or not, the panel is dimmed exactly since AC ended a
      Grace with a dimmed panel and no `Undim` has been sent, and off exactly
      since AC ended one with the screen off and no `Screen(true)` has been sent. */
  lemma DarkInActiveExactly(b: Boot, ws: seq<World>, ms: seq<Move>, k: nat)
    requires IsRun(b, ws, ms) && k < |ws| && ws[k].core.state == Active
    ensures Virtual(ws[k]).dimmed <==> Since(StrandsDim, SendsUndim, ws, ms, k)
    ensures Virtual(ws[k]).screenOff <==> Since(StrandsScreen, SendsScreenOn, ws, ms, k)
    ensures Drained(ws[k]) ==> Virtual(ws[k]) == ws[k].fx
  {
    hide Since, StrandsDim, StrandsScreen, SendsUndim, SendsScreenOn;
    LightsAlong(b, ws, ms, k);
  }

  // ------------------------------------------------- dark when it should be

  /** `Dimmed` and `ScreenOff` mean what they say, also while a suspend asked for
      from there may still be refused. */
  ghost predicate DarkOk(c: Core, v: Effects) {
    var s := if c.state == Suspending then c.suspendFrom else c.state;
    (s == Dimmed ==> v.dimmed) && (s == ScreenOff ==> v.screenOff)
  }

  lemma DarkEvent(c: Core, e: Event, d: Core, v: Effects, q: seq<Command>)
    requires NoRetryInCycle(c) && DarkOk(c, v) && d.state == NextState(c, e) && FieldsAre(c, e, d)
    requires forall cmd :: cmd in q <==> Due(c, e, d.state, d.mode, cmd)
    ensures DarkOk(d, After(v, q))
  {
    hide NextState, Undims, TurnsOn, DueSleep, DueTimer, DueCancel, DueNews, AppliesMode, AnswerTo, StagesDue, LastResort, Leaves,
         PowerFound, NextMode, AutoModeOk, After, Asks, NextPending, NextInterrupted, NextFailures;
    DarkStates(c, e);
    assert Dim(c.config.dimPercent) in q <==> c.state == Active && d.state == Dimmed;
    assert forall p :: Dim(p) in q ==> Dim(c.config.dimPercent) in q;
    assert Screen(false) in q <==> (c.state == Active || c.state == Dimmed) && d.state == ScreenOff;
    DimAfter(v, q);
    ScreenAfter(v, q);
  }

  /** How the dark states are entered, and that nothing lights the panel in them. */
  lemma DarkStates(c: Core, e: Event)
    requires NoRetryInCycle(c)
    ensures var n := NextState(c, e);
            && (n != Active ==> !Undims(c, e) && !TurnsOn(c, e))
            && (TurnsOn(c, e) ==> n == Active) && (Undims(c, e) ==> n == Active)
            && (n == Dimmed ==> c.state == Active || c.state == Dimmed || (c.state == Suspending && c.suspendFrom == Dimmed))
            && (n == ScreenOff ==>
                  c.state == Active || c.state == Dimmed || c.state == ScreenOff || (c.state == Suspending && c.suspendFrom == ScreenOff))
            && (n == Suspending && c.state != Suspending ==> !c.state.LongSleep? && Asks(c, e))
            && (n == Suspending && c.state == Suspending ==> !Asks(c, e) || NextSuspendFrom(c, e) == Suspending)
  {
    hide Hindered, Holds, OutOfPower;
  }

  lemma {:induction false} DarkAlong(b: Boot, ws: seq<World>, ms: seq<Move>, k: nat)
    requires IsRun(b, ws, ms) && k < |ws| && !ws[k].down
    ensures DarkOk(ws[k].core, Virtual(ws[k]))
  {
    hide Inv, DarkOk, Perform, Legal, Start, Virtual;
    if k == 0 {
      StartsAwakeOrChecking(b);
    } else {
      var w, m := ws[k - 1], ms[k - 1];
      assert Legal(w, m) && ws[k] == Perform(w, m);
      NotDown(w, m);
      DarkAlong(b, ws, ms, k - 1);
      RunKeepsInv(b, ws, ms, k - 1);
      if Fed(w, m).Some? {
        EngineExactly(b, ws, ms, k - 1);
        DarkFed(w, m);
      } else {
        DarkElse(w, m);
      }
    }
  }

  lemma StartsAwakeOrChecking(b: Boot)
    ensures DarkOk(Start(b).core, Virtual(Start(b)))
  {
    hide ModeCommands, After;
  }

  lemma DarkFed(w: World, m: Move)
    requires Inv(w) && Legal(w, m) && !w.down && Fed(w, m).Some? && DarkOk(w.core, Virtual(w))
    requires var e, d := Fed(w, m).value, Perform(w, m).core;
             && d.state == NextState(w.core, e) && FieldsAre(w.core, e, d)
             && forall cmd :: cmd in Sent(w, m) <==> Due(w.core, e, d.state, d.mode, cmd)
    ensures DarkOk(Perform(w, m).core, Virtual(Perform(w, m)))
  {
    hide Inv, Legal, Perform, Virtual, After, Handle, Found, NextState, FieldsAre, Due, NoRetryInCycle;
    FedTurn(w, m);
    FoundEffects(w, m);
    NoRetry(w);
    DarkEvent(w.core, Fed(w, m).value, Perform(w, m).core, Virtual(Found(w, m)), Sent(w, m));
  }

  lemma DarkElse(w: World, m: Move)
    requires Inv(w) && Legal(w, m) && !w.down && Fed(w, m).None? && DarkOk(w.core, Virtual(w))
    ensures DarkOk(Perform(w, m).core, Virtual(Perform(w, m)))
  {
    hide Inv, Legal, Perform, Virtual, After, SetConfig, Load;
    if Loaded(w, m).Some? {
      LoadedTurn(w, m);
      SetConfigFrame(w.core, Loaded(w, m).value);
      ConfigPursuesNothing(w.core, Loaded(w, m).value);
      DimAfter(Virtual(w).(pivots := []), Sent(w, m));
      ScreenAfter(Virtual(w).(pivots := []), Sent(w, m));
    } else {
      PlainTurn(w, m);
    }
  }

  /** In every run: drained, the panel is dimmed in `Dimmed` and off in
      `ScreenOff`. With `DarkInActiveExactly`, the state says what is shown. */
  lemma DarkWhereItSays(b: Boot, ws: seq<World>, ms: seq<Move>, k: nat)
    requires IsRun(b, ws, ms) && k < |ws| && Drained(ws[k])
    ensures ws[k].core.state == Dimmed ==> ws[k].fx.dimmed
    ensures ws[k].core.state == ScreenOff ==> ws[k].fx.screenOff
    ensures ws[k].core.state == Suspending && ws[k].core.suspendFrom == ScreenOff ==> ws[k].fx.screenOff
  {
    DarkAlong(b, ws, ms, k);
  }

  // ------------------------------------------------------- as far as the agent

  lemma LinkTurn(w: World, m: Move)
    requires Legal(w, m)
    ensures Perform(w, m).link ==
              match m
              case Drain(a) =>
                if w.queue[0].Screen? then A.SetScreen(w.link, w.queue[0].on)
                else if w.queue[0].ReplaceIdleStages? then A.ReplaceStages(w.link, w.queue[0].stages)
                else if Loaded(w, m).Some? then A.SetDisplay(w.link, Loaded(w, m).value.display)
                else w.link
              case Take(AgentConnects) => A.Register(w.link)
              case Take(AgentLeaves(id)) => A.Unregister(w.link, id)
              case Take(AgentSays(id, said)) => A.Note(w.link, id, said)
              case _ => w.link
  {
    hide Handle, CountFailures, SetConfig, Load, ArmRtc, ClearRtc, Apply, RtcFor, Strands, A.Register, A.Unregister, A.Note,
         A.SetDisplay, A.SetScreen, A.ReplaceStages, WakeEvent;
    if m.Take? && m.input.WakesUp? {
      WakeFinds(w, m.input.now);
    }
  }

  /** The last Screen executed since an agent has connected. */
  function LastScreen(ws: seq<World>, ms: seq<Move>, k: nat): Option<bool>
    requires k <= |ms| <= |ws|
  {
    if k == 0 || ms[k - 1] == Take(AgentConnects) then None
    else if ms[k - 1].Drain? && ws[k - 1].queue != [] && ws[k - 1].queue[0].Screen? then Some(ws[k - 1].queue[0].on)
    else LastScreen(ws, ms, k - 1)
  }

  /** A connected agent has been told exactly that about the screen. */
  lemma {:induction false} ScreenToTheAgent(b: Boot, ws: seq<World>, ms: seq<Move>, k: nat)
    requires IsRun(b, ws, ms) && k < |ws| && ws[k].link.stream.Some?
    ensures A.ScreenTold(ws[k].link.sent) == LastScreen(ws, ms, k)
  {
    hide Perform, Legal, Start, Loaded, A.ScreenTold;
    if k == 0 {
      NobodyConnected(b);
    } else {
      var w, m := ws[k - 1], ms[k - 1];
      assert Legal(w, m) && ws[k] == Perform(w, m);
      DrainIsLegal(w, m);
      LinkTurn(w, m);
      A.NothingHeard(w.link);
      if w.link.stream.Some? {
        ScreenToTheAgent(b, ws, ms, k - 1);
        A.ScreenHeard(w.link, if m.Drain? && w.queue[0].ReplaceIdleStages? then w.queue[0].stages else NO_STAGES,
                      m.Drain? && w.queue[0].Screen? && w.queue[0].on, if Loaded(w, m).Some? then Loaded(w, m).value.display else w.link.display);
      }
    }
  }

  lemma DrainIsLegal(w: World, m: Move)
    requires Legal(w, m)
    ensures m.Drain? ==> w.queue != []
  {
  }

  lemma NobodyConnected(b: Boot)
    ensures Start(b).link.stream == None
  {
    hide StartOut;
  }
}
