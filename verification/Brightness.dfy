/** The panel in a run of the whole daemon: the `Dim` and `Undim` the engine
    sends, executed by the backlight controller while its fades run beside. */
module Brightness {
  import opened Types
  import opened Transition
  import opened Effects
  import opened Discipline
  import opened Invariants
  import A = Agent
  import opened Supply
  import opened Wake
  import opened World
  import opened Backlight
  import opened Safety
  import opened Runs
  import opened Turns
  import opened Lights

  /** What a move of the daemon asks of the controller. */
  function Demand(w: World, m: Move, l: Luck): Option<Act> {
    if m.Drain? && w.queue != [] && w.queue[0].Dim? then Some(AskDim(w.queue[0].percent, l))
    else if m.Drain? && w.queue != [] && w.queue[0].Undim? then Some(AskUndim(l))
    else None
  }

  function Follow(d: Desk, demand: Option<Act>): Desk {
    if demand.Some? then Do(d, demand.value) else d
  }

  /** Between two moves the fade makes any number of steps, and a reload may
      bring other settings for the same device. */
  predicate Between(acts: seq<Act>) {
    forall a | a in acts :: Clean(a) && (a.Step? || a.NewSettings?)
  }

  /** The controller when move `k` reaches it. */
  function Reached(ds: seq<Desk>, fades: seq<seq<Act>>, k: nat): Desk
    requires k < |ds| && k < |fades|
  {
    DoAll(ds[k], fades[k])
  }

  /** `ds` are the states of the controller along a run, nothing going wrong
      with the device. */
  ghost predicate Accompanies(ws: seq<World>, ms: seq<Move>, ds: seq<Desk>, fades: seq<seq<Act>>, ls: seq<Luck>)
    requires |ws| == |ms| + 1
  {
    && |ds| == |ws| && |fades| == |ls| == |ms|
    && (forall k :: 0 <= k < |ms| ==>
          && Between(fades[k]) && Smooth(ls[k])
          && ds[k + 1] == Follow(Reached(ds, fades, k), Demand(ws[k], ms[k], ls[k])))
  }

  /** Move `k` dims before the ramp of a restore has made its last step. */
  ghost predicate CutAt(ws: seq<World>, ms: seq<Move>, ds: seq<Desk>, fades: seq<seq<Act>>, ls: seq<Luck>, k: nat)
    requires k < |ws| && k < |ms| && k < |ds| && k < |fades| && k < |ls|
  {
    var demand := Demand(ws[k], ms[k], ls[k]);
    demand.Some? && CutsRamp(Reached(ds, fades, k), demand.value)
  }

  /** The brightness the daemon owes the user at `k`: what the panel had at
      first, or what the last dim that cut a ramp short has read. */
  ghost function Kept(ws: seq<World>, ms: seq<Move>, ds: seq<Desk>, fades: seq<seq<Act>>, ls: seq<Luck>, v: nat, k: nat): nat
    requires k <= |ms| && k <= |ws| && k <= |ds| && k <= |fades| && k <= |ls|
  {
    if k == 0 then v
    else if CutAt(ws, ms, ds, fades, ls, k - 1) then StopFade(Reached(ds, fades, k - 1), ls[k - 1]).panel
    else Kept(ws, ms, ds, fades, ls, v, k - 1)
  }

  lemma {:induction false} KeptWithoutCuts(ws: seq<World>, ms: seq<Move>, ds: seq<Desk>, fades: seq<seq<Act>>, ls: seq<Luck>,
                                           v: nat, k: nat)
    requires k <= |ms| && k <= |ws| && k <= |ds| && k <= |fades| && k <= |ls|
    requires forall j :: 0 <= j < k ==> !CutAt(ws, ms, ds, fades, ls, j)
    ensures Kept(ws, ms, ds, fades, ls, v, k) == v
  {
    if k > 0 {
      KeptWithoutCuts(ws, ms, ds, fades, ls, v, k - 1);
    }
  }

  /** Every fade of this run has steps (Backlight.StepsPositive). */
  ghost predicate Stepped(ds: seq<Desk>, fades: seq<seq<Act>>)
    requires |fades| < |ds|
  {
    forall k :: 0 <= k < |fades| ==> Steps(Reached(ds, fades, k).transition) != 0
  }

  lemma MoveDims(w: World, m: Move)
    requires Legal(w, m)
    ensures Perform(w, m).fx.dimmed ==
              if m.Drain? && w.queue[0].Dim? then true else if m.Drain? && w.queue[0].Undim? then false else w.fx.dimmed
  {
    match m
    case Drain(a) => DrainDims(w, a);
    case Take(i) => TakeDims(w, i);
  }

  lemma DrainDims(w: World, a: Answer)
    requires w.queue != []
    ensures Execute(w, a).fx.dimmed ==
              if w.queue[0].Dim? then true else if w.queue[0].Undim? then false else w.fx.dimmed
  {
    hide Execute, Apply;
    if IsPivot(w.queue[0]) {
      PivotDims(w, a);
    } else {
      EffectFrame(w, a);
      ApplyDims(w.fx, w.queue[0]);
    }
  }

  lemma ApplyDims(v: Effects, c: Command)
    ensures Apply(v, c).dimmed == if c.Dim? then true else if c.Undim? then false else v.dimmed
  {
  }

  lemma FeedBackFx(w: World, e: Event)
    ensures FeedBack(w, e).fx == w.fx && Deliver(w, e).fx == w.fx
  {
    hide Handle, CountFailures, Strands;
  }

  lemma PivotDims(w: World, a: Answer)
    requires w.queue != [] && IsPivot(w.queue[0])
    ensures Execute(w, a).fx.dimmed == w.fx.dimmed
  {
    hide Apply, FeedBack, ArmRtc, Load, SetConfig, A.SetDisplay, RtcFor;
    var w' := w.(queue := w.queue[1..]);
    match w.queue[0]
    case GoToSleep(_, _) => FeedBackFx(w', SleepFailed);
    case ScheduleWake(after) =>
      var (armed, cells) := ArmRtc(w.rtc, w.cells, a.now + after, a);
      FeedBackFx(w'.(cells := cells,
                     fx := w.fx.(scheduled := if armed then Some(a.now + after) else None, live := armed || w.fx.live),
                     armedAt := if armed then Some(a.now + after) else w.armedAt), WakeScheduled(armed));
    case _ =>
  }

  lemma WakeDims(w: World, now: Instant)
    ensures WakeEvent(w, now).0.fx.dimmed == w.fx.dimmed
  {
    hide ClassifyWake;
  }

  lemma TakeDims(w: World, i: Input)
    requires Possible(w, i)
    ensures Receive(w, i).fx.dimmed == w.fx.dimmed
  {
    hide Deliver, FeedBack, WakeEvent, ReadSource, A.Register, A.Unregister, A.Note;
    match i
    case Signal(e) => FeedBackFx(w, e);
    case GoesDown(answers) => FeedBackFx(w.(inflight := if answers then w.inflight - 1 else w.inflight), GoingDown);
    case WakesUp(now) =>
      FeedBackFx(WakeEvent(w, now).0, WakeEvent(w, now).1);
      WakeDims(w, now);
    case Refuses(e) => FeedBackFx(w.(inflight := w.inflight - 1), e);
    case TimerDue(id) => FeedBackFx(w.(fx := w.fx.(timers := w.fx.timers - {id})), TimerFired(id));
    case Client(id, request) => FeedBackFx(w.(asked := w.asked + multiset{id}), Ipc(id, request));
    case PowerMoves => FeedBackFx(w.(feed := w.feed.(channel := w.feed.channel[1..])), w.feed.channel[0]);
    case _ =>
  }

  lemma {:induction false} FadesKeep(d: Desk, v: nat, acts: seq<Act>)
    requires Owner(d, v) && Between(acts)
    ensures Owner(DoAll(d, acts), v) && DoAll(d, acts).dimmed == d.dimmed
    decreases |acts|
  {
    if acts != [] {
      hide Owner, CutsRamp, HasNoSteps;
      assert acts[0] in acts;
      assert !CutsRamp(d, acts[0]) && !HasNoSteps(d, acts[0], v) by { OnlyAsked(d, acts[0], v); }
      KeptExactly(d, v, acts[0]);
      assert Do(d, acts[0]).dimmed == d.dimmed;
      FadesKeep(Do(d, acts[0]), v, acts[1..]);
    }
  }

  lemma OnlyAsked(d: Desk, a: Act, v: nat)
    requires a.Step? || a.NewSettings?
    ensures !CutsRamp(d, a) && !HasNoSteps(d, a, v)
  {
  }

  lemma DimDims(d: Desk, percent: nat, l: Luck)
    requires d.present && l.canRead
    ensures DimTo(d, percent, l).dimmed && !Restore(d, l).dimmed
  {
    hide StopFade, TargetFor, Steps;
    StopLeaves(d, l);
  }

  lemma StopLeaves(d: Desk, l: Luck)
    ensures var s := StopFade(d, l); s.present == d.present && s.dimmed == d.dimmed
  {
  }

  /** The controller is dimmed exactly when the daemon's last word to it was
      `Dim`, and it keeps the brightness it owes. */
  lemma {:induction false} InStep(b: Boot, ws: seq<World>, ms: seq<Move>, ds: seq<Desk>, fades: seq<seq<Act>>, ls: seq<Luck>,
                                  v: nat, k: nat)
    requires IsRun(b, ws, ms) && Accompanies(ws, ms, ds, fades, ls) && Stepped(ds, fades) && k < |ws|
    requires Owner(ds[0], v) && !ds[0].dimmed
    ensures Owner(ds[k], Kept(ws, ms, ds, fades, ls, v, k)) && ds[k].dimmed == ws[k].fx.dimmed
  {
    hide Owner, CutsRamp, HasNoSteps, Start, Perform, DimTo, Restore, Steps;
    if k == 0 {
      StartsUndimmed(b);
    } else {
      InStep(b, ws, ms, ds, fades, ls, v, k - 1);
      var w, m, l := ws[k - 1], ms[k - 1], ls[k - 1];
      var u := Kept(ws, ms, ds, fades, ls, v, k - 1);
      var d := Reached(ds, fades, k - 1);
      var demand := Demand(w, m, l);
      assert Legal(w, m) && ds[k] == Follow(d, demand);
      FadesKeep(ds[k - 1], u, fades[k - 1]);
      MoveDims(w, m);
      OwnerIsPresent(d, u);
      if demand.Some? {
        DemandKept(d, u, demand.value);
        DimDims(d, if w.queue[0].Dim? then w.queue[0].percent else 0, l);
      }
    }
  }

  /** A dim or undim of the daemon, cutting a ramp or not. */
  lemma DemandKept(d: Desk, v: nat, a: Act)
    requires Owner(d, v) && Clean(a) && (a.AskDim? || a.AskUndim?) && Steps(d.transition) != 0
    ensures Owner(Do(d, a), if CutsRamp(d, a) then StopFade(d, a.luck).panel else v)
  {
    hide Steps, Restore, Frame;
    if CutsRamp(d, a) {
      hide DimTo;
      DimOwnsWhatItReads(d, a.percent, a.luck);
    } else {
      hide Owner, DimTo;
      assert !HasNoSteps(d, a, v);
      KeptExactly(d, v, a);
    }
  }

  lemma StartsUndimmed(b: Boot)
    ensures !Start(b).fx.dimmed
  {
    hide StartOut;
  }

  /** Whenever the daemon has come back to `Active`, over any number of dims,
      refused suspends and server cycles, the panel settles at exactly what it
      owes the user, unless AC ended a Grace with a dimmed panel and no `Undim`
      has been sent since; then the controller is still dimmed. */
  lemma BrightnessInEveryRun(b: Boot, ws: seq<World>, ms: seq<Move>, ds: seq<Desk>, fades: seq<seq<Act>>, ls: seq<Luck>,
                             v: nat, k: nat, works: nat -> bool)
    requires IsRun(b, ws, ms) && Accompanies(ws, ms, ds, fades, ls) && Stepped(ds, fades) && k < |ws|
    requires Owner(ds[0], v) && !ds[0].dimmed && forall i :: works(i)
    requires Drained(ws[k]) && ws[k].core.state.Active?
    ensures ds[k].dimmed <==> Since(StrandsDim, SendsUndim, ws, ms, k)
    ensures !ds[k].dimmed ==> Settle(ds[k], works).panel == Kept(ws, ms, ds, fades, ls, v, k)
    ensures (forall j :: 0 <= j < k ==> !CutAt(ws, ms, ds, fades, ls, j)) ==> Kept(ws, ms, ds, fades, ls, v, k) == v
  {
    hide Stepped, Owner, StrandsDim, SendsUndim, Since, Virtual, CutAt;
    InStep(b, ws, ms, ds, fades, ls, v, k);
    DarkInActiveExactly(b, ws, ms, k);
    if !ds[k].dimmed {
      RunOutShows(ds[k], Kept(ws, ms, ds, fades, ls, v, k), works, 0);
    }
    if forall j :: 0 <= j < k ==> !CutAt(ws, ms, ds, fades, ls, j) {
      KeptWithoutCuts(ws, ms, ds, fades, ls, v, k);
    }
  }
}
