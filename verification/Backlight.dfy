/** Screen brightness: percentages, the ramp of a fade, and the promise that
    a dim can be undone at any moment.

    A fade is a task that runs beside the controller and shares the panel and
    `written` with it; its steps fall anywhere between the controller's calls.
    Cancelling it may still let one step through, when the task has already
    looked at the cancel flag. */
module Backlight {
  import opened Types

  const U32: nat := 0x1_0000_0000
  const I64_MAX: nat := 0x7FFF_FFFF_FFFF_FFFF
  const MILLISECOND: nat := 1_000_000
  const STEP_MILLIS: nat := 16

  // ------------------------------------------------------------- arithmetic

  /** Integer division that truncates toward zero. */
  function Truncated(a: int, b: nat): int
    requires b > 0
  {
    if a >= 0 then a / b else -(-a / b)
  }

  function RawFromPercent(max: nat, percent: nat): nat {
    max * percent / 100 % U32
  }

  function ToPercent(raw: nat, max: nat): nat {
    if max == 0 then 0 else Min((raw * 100 + max / 2) / max, 100)
  }

  function Interpolate(from: nat, to: nat, step: nat, steps: nat): nat
    requires steps > 0
  {
    (from + Truncated((to - from) * step, steps)) % U32
  }

  function TargetFor(max: nat, minPercent: nat, percent: nat): nat {
    Min(Max(RawFromPercent(max, percent), RawFromPercent(max, minPercent)), max)
  }

  /** One step every 16 ms; the count is cut to 32 bits. */
  function Steps(transition: Duration): nat {
    if transition == 0 then 1 else Max(transition / MILLISECOND / STEP_MILLIS, 1) % U32
  }

  lemma DivBetween(a: nat, b: nat, lo: nat, hi: nat)
    requires b > 0 && lo * b <= a < (hi + 1) * b
    ensures lo <= a / b <= hi
  {
    var q := a / b;
    assert q * b <= a < (q + 1) * b;
    Scale(q + 1, lo, b);
    Scale(hi + 1, q, b);
  }

  /** How far a ramp over `d` has come after `step` of `steps`. */
  function Way(d: nat, step: nat, steps: nat): nat
    requires steps > 0
  {
    d * step / steps
  }

  lemma WayBounds(d: nat, step: nat, steps: nat)
    requires steps > 0 && step <= steps
    ensures Way(d, step, steps) <= d
    ensures Way(d, step, steps) == d <==> step == steps || d == 0
  {
    if step == steps {
      DivBetween(d * step, steps, d, d);
    } else if d > 0 {
      assert d * step <= d * (steps - 1);
      assert d * (steps - 1) == d * steps - d;
      DivBetween(d * step, steps, 0, d - 1);
    } else {
      assert d * step == 0;
      DivBetween(0, steps, 0, 0);
    }
  }

  lemma WayGrows(d: nat, step: nat, later: nat, steps: nat)
    requires steps > 0 && step <= later
    ensures Way(d, step, steps) <= Way(d, later, steps)
  {
    var q := d * step / steps;
    var q' := d * later / steps;
    assert q * steps <= d * step && d * later < (q' + 1) * steps;
    Scale(step, later, d);
    Scale(q' + 1, q, steps);
  }

  /** The ramp as the distance covered; the 32-bit cast never bites. */
  lemma InterpolateIsWay(from: nat, to: nat, step: nat, steps: nat)
    requires from < U32 && to < U32 && 0 < steps && step <= steps
    ensures to >= from ==> Interpolate(from, to, step, steps) == from + Way(to - from, step, steps)
    ensures to < from ==> Interpolate(from, to, step, steps) == from - Way(from - to, step, steps)
  {
    if to >= from {
      WayBounds(to - from, step, steps);
      assert (to - from) * step >= 0;
      assert from + Truncated((to - from) * step, steps) == from + Way(to - from, step, steps);
    } else {
      WayBounds(from - to, step, steps);
      assert (to - from) * step == -((from - to) * step);
      if (from - to) * step == 0 {
        assert Truncated(0, steps) == 0 == Way(from - to, step, steps);
      }
      assert from + Truncated((to - from) * step, steps) == from - Way(from - to, step, steps);
    }
  }

  /** A ramp stays between its ends, never turns back, and shows its target
      exactly when it is over. */
  lemma RampIsMonotone(from: nat, to: nat, step: nat, later: nat, steps: nat)
    requires from < U32 && to < U32 && 0 < steps && step <= later <= steps
    ensures from <= to ==> from <= Interpolate(from, to, step, steps) <= Interpolate(from, to, later, steps) <= to
    ensures from >= to ==> from >= Interpolate(from, to, step, steps) >= Interpolate(from, to, later, steps) >= to
    ensures Interpolate(from, to, step, steps) == to <==> step == steps || from == to
  {
    hide Interpolate, Way;
    InterpolateIsWay(from, to, step, steps);
    InterpolateIsWay(from, to, later, steps);
    var d := if from <= to then to - from else from - to;
    WayBounds(d, step, steps);
    WayBounds(d, later, steps);
    WayGrows(d, step, later, steps);
  }

  /** In between it is a straight line, rounded toward where it comes from: never
      a whole level behind, never ahead. */
  lemma RampIsStraight(from: nat, to: nat, step: nat, steps: nat)
    requires from < U32 && to < U32 && 0 < steps && step <= steps
    ensures var covered := Abs(Interpolate(from, to, step, steps) - from);
            covered * steps <= Abs(to - from) * step < (covered + 1) * steps
  {
    InterpolateIsWay(from, to, step, steps);
    hide Interpolate;
    WayCovers(Abs(to - from), step, steps);
  }

  lemma WayCovers(d: nat, step: nat, steps: nat)
    requires steps > 0
    ensures Way(d, step, steps) * steps <= d * step < (Way(d, step, steps) + 1) * steps
  {
  }

  predicate FitsI64(from: nat, to: nat, step: nat) {
    -(I64_MAX as int) - 1 <= (to - from) * step <= I64_MAX
  }

  lemma RampFits(from: nat, to: nat, step: nat)
    requires from < U32 && to < U32 && step <= 0x8000_0000
    ensures FitsI64(from, to, step)
  {
    Scale(-(U32 as int) + 1, to - from, step);
    Scale(to - from, U32 - 1, step);
  }

  /** The product of the ramp fits its 64 bits for every ramp of this many
      steps exactly when there are at most 2^31 of them. */
  lemma RampFitsExactly(steps: nat)
    requires 0 < steps < U32
    ensures (forall from: nat, to: nat, step: nat :: from < U32 && to < U32 && step <= steps ==> FitsI64(from, to, step))
            <==> steps <= 0x8000_0000
  {
    assert !FitsI64(0, U32 - 1, steps) <==> steps > 0x8000_0000;
    hide FitsI64;
    if steps <= 0x8000_0000 {
      forall from: nat, to: nat, step: nat | from < U32 && to < U32 && step <= steps
        ensures FitsI64(from, to, step)
      {
        RampFits(from, to, step);
      }
    }
  }

  /** Percent to raw and back is the identity exactly when rounding down to a
      raw value lost no more than half the range. */
  lemma PercentRoundTrip(max: nat, p: nat)
    requires 0 < max < U32 && p <= 100
    ensures ToPercent(RawFromPercent(max, p), max) == p <==> max * p % 100 <= max / 2
  {
    var lost := max * p % 100;
    assert max * p <= max * 100;
    var raw := max * p / 100;
    assert raw < U32 && RawFromPercent(max, p) == raw;
    assert raw * 100 + lost == max * p;
    var half := max / 2;
    var n := raw * 100 + half;
    if lost <= half {
      assert n < (p + 1) * max;
      DivBetween(n, max, p, p);
    } else {
      assert n < p * max;
      assert p > 0;
      DivBetween(n, max, 0, p - 1);
    }
  }

  /** On any panel with 198 levels or more it always is. */
  lemma PercentRoundTripFrom198(max: nat, p: nat)
    requires 198 <= max < U32 && p <= 100
    ensures ToPercent(RawFromPercent(max, p), max) == p
  {
    hide ToPercent, RawFromPercent;
    PercentRoundTrip(max, p);
    Halves(max, max * p);
  }

  lemma Halves(max: nat, n: nat)
    requires 198 <= max
    ensures n % 100 <= max / 2
  {
  }

  /** With 197 levels, 67 percent comes back as 66. */
  lemma PercentLostAt197()
    ensures ToPercent(RawFromPercent(197, 67), 197) == 66
  {
    assert RawFromPercent(197, 67) == 131;
  }

  lemma PercentOfMax(max: nat, p: nat)
    requires max < U32 && p <= 100
    ensures RawFromPercent(max, p) == max * p / 100 <= max
  {
    Scale(p, 100, max);
    var n := max * p;
    assert n / 100 <= max;
  }

  /** The target of a dim is the larger of the percentage asked for and the
      floor, as a raw value; and with 198 levels or more it reads back as exactly
      that percentage. */
  lemma TargetIsThePercentage(max: nat, minPercent: nat, percent: nat)
    requires max < U32 && minPercent <= 100 && percent <= 100
    ensures TargetFor(max, minPercent, percent) == max * Max(minPercent, percent) / 100
    ensures 198 <= max ==> ToPercent(TargetFor(max, minPercent, percent), max) == Max(minPercent, percent)
  {
    hide ToPercent, RawFromPercent;
    PercentOfMax(max, minPercent);
    PercentOfMax(max, percent);
    PercentGrows(max, Min(minPercent, percent), Max(minPercent, percent));
    if 198 <= max {
      PercentRoundTripFrom198(max, Max(minPercent, percent));
    }
  }

  lemma PercentGrows(max: nat, p: nat, q: nat)
    requires p <= q
    ensures max * p / 100 <= max * q / 100
  {
    Scale(p, q, max);
    var a, b := max * p, max * q;
    assert a <= b;
  }

  lemma ToPercentGrows(a: nat, b: nat, max: nat)
    requires a <= b && 0 < max
    ensures ToPercent(a, max) <= ToPercent(b, max)
  {
    DivGrows(a * 100 + max / 2, b * 100 + max / 2, max);
  }

  lemma DivGrows(a: nat, b: nat, c: nat)
    requires a <= b && 0 < c
    ensures a / c <= b / c
  {
    var p, q := a / c, b / c;
    assert p * c <= a && b < (q + 1) * c;
    Scale(q + 1, p, c);
  }

  /** A dim never brightens the panel and never goes below the floor. */
  lemma DimStaysAboveFloor(max: nat, minPercent: nat, percent: nat, current: nat, step: nat, steps: nat)
    requires max < U32 && current < U32 && minPercent <= 100 && 0 < steps && step <= steps
    ensures var target := Min(TargetFor(max, minPercent, percent), current);
            Min(max * minPercent / 100, current) <= Interpolate(current, target, step, steps) <= current
  {
    hide Interpolate;
    PercentOfMax(max, minPercent);
    RampIsMonotone(current, Min(TargetFor(max, minPercent, percent), current), step, steps, steps);
  }

  // ------------------------------------------------------------- the states

  /** A fade task: `made` of its steps are done; a failed write ends it. */
  datatype Ramp = Ramp(from: nat, to: nat, steps: nat, made: nat, alive: bool)
  {
    predicate Running() {
      alive && made < steps
    }
  }

  /** The controller and its panel. */
  datatype Desk = Desk(
    present: bool, panel: nat, max: nat,
    dimmed: bool, preDim: Option<nat>, written: nat,
    minPercent: nat, transition: Duration,
    ramp: Option<Ramp>)

  /** What goes well during one call: whether a step of a cancelled fade still
      gets through and can be written, whether the panel can be read, whether
      it can be written. */
  datatype Luck = Luck(late: bool, lateWorks: bool, canRead: bool, canWrite: bool)

  /** One frame of the fade task: store the value, then write it. */
  function Frame(d: Desk, works: bool): Desk {
    if d.ramp.Some? && d.ramp.value.Running() then
      var r := d.ramp.value;
      var value := Interpolate(r.from, r.to, r.made + 1, r.steps);
      if works then d.(panel := value, written := value, ramp := Some(r.(made := r.made + 1)))
      else d.(written := value, ramp := Some(r.(alive := false)))
    else d
  }

  function StopFade(d: Desk, l: Luck): Desk {
    (if l.late then Frame(d, l.lateWorks) else d).(ramp := None)
  }

  function FadeTo(d: Desk, from: nat, to: nat, works: bool): Desk {
    var steps := Steps(d.transition);
    if from == to then d
    else if steps == 1 then d.(written := to, panel := if works then to else d.panel)
    else d.(written := to, ramp := Some(Ramp(from, to, steps, 0, true)))
  }

  function DimTo(d: Desk, percent: nat, l: Luck): Desk {
    if !d.present || d.dimmed then d
    else
      var s := StopFade(d, l);
      if !l.canRead then s
      else
        FadeTo(s.(preDim := Some(s.panel), dimmed := true), s.panel,
               Min(TargetFor(s.max, s.minPercent, percent), s.panel), l.canWrite)
  }

  function Restore(d: Desk, l: Luck): Desk {
    if !d.present || !d.dimmed then d
    else
      var s := StopFade(d, l);
      var s' := s.(preDim := None, dimmed := false);
      if s.preDim.None? || !l.canRead || s.panel != s.written then s'
      else FadeTo(s', s.panel, s.preDim.value, l.canWrite)
  }

  function RunOut(d: Desk, works: nat -> bool, i: nat): Desk
    decreases if d.ramp.Some? && d.ramp.value.Running() then d.ramp.value.steps - d.ramp.value.made else 0
  {
    if d.ramp.Some? && d.ramp.value.Running() then RunOut(Frame(d, works(i)), works, i + 1) else d
  }

  /** Waits for the fade to run out. */
  function Settle(d: Desk, works: nat -> bool): Desk {
    RunOut(d, works, 0).(ramp := None)
  }

  datatype Found = Found(value: nat, max: nat)

  /** A reloaded `[backlight]`; `device` is there only when its name changed. */
  function Reconfigure(d: Desk, minPercent: nat, transition: Duration, device: Option<Option<Found>>, l: Luck): Desk {
    var d' := d.(minPercent := minPercent, transition := transition);
    match device
    case None => d'
    case Some(found) =>
      var s := StopFade(d', l).(preDim := None, dimmed := false);
      match found
      case None => s.(present := false, panel := 0, max := 0)
      case Some(p) => s.(present := true, panel := p.value, max := p.max)
  }

  datatype Act =
    | Step(works: bool)
    | AskDim(percent: nat, luck: Luck)
    | AskUndim(luck: Luck)
    | NewSettings(minPercent: nat, transition: Duration, device: Option<Option<Found>>, luck: Luck)
    | Elsewhere(value: nat)

  function Do(d: Desk, a: Act): Desk {
    match a
    case Step(works) => Frame(d, works)
    case AskDim(percent, l) => DimTo(d, percent, l)
    case AskUndim(l) => Restore(d, l)
    case NewSettings(m, t, device, l) => Reconfigure(d, m, t, device, l)
    case Elsewhere(value) => d.(panel := value)
  }

  function DoAll(d: Desk, acts: seq<Act>): Desk
    decreases |acts|
  {
    if acts == [] then d else DoAll(Do(d, acts[0]), acts[1..])
  }

  // --------------------------------------------------- what a dim must keep

  predicate Smooth(l: Luck) {
    l.lateWorks && l.canRead && l.canWrite
  }

  /** No access fails, nobody else writes, the device stays the same. */
  predicate Clean(a: Act) {
    match a
    case Step(works) => works
    case AskDim(_, l) => Smooth(l)
    case AskUndim(l) => Smooth(l)
    case NewSettings(_, _, device, _) => device.None?
    case Elsewhere(_) => false
  }

  predicate InRange(d: Desk) {
    && d.panel < U32 && d.max < U32 && d.written < U32 && (d.preDim.Some? ==> d.preDim.value < U32)
    && (d.ramp.Some? ==> d.ramp.value.from < U32 && d.ramp.value.to < U32)
  }

  /** A fade in progress: nothing shown yet but its start, then its steps. */
  predicate OnRamp(d: Desk, r: Ramp) {
    && r.alive && r.from != r.to && 0 < r.steps && r.made <= r.steps
    && (r.made == 0 ==> d.panel == r.from && d.written == r.to)
    && (r.made > 0 ==> d.panel == d.written == Interpolate(r.from, r.to, r.made, r.steps))
  }

  /** `v` is the brightness the user chose: on the panel, or on the way there,
      or remembered while the panel is dimmed. */
  predicate Owner(d: Desk, v: nat) {
    && InRange(d) && v < U32 && d.present
    && (if d.dimmed then
          && d.preDim == Some(v)
          && (d.panel == d.written || d.panel == v)
          && (d.ramp.Some? && d.ramp.value.Running() ==> d.ramp.value.steps > 0)
        else
          && d.preDim == None
          && (if d.ramp.Some? then d.ramp.value.to == v && OnRamp(d, d.ramp.value) else d.panel == v))
  }

  /** A dim that arrives before the ramp of a restore has made its last step. */
  predicate CutsRamp(d: Desk, a: Act) {
    && a.AskDim? && !d.dimmed && d.ramp.Some?
    && d.ramp.value.made + (if a.luck.late then 1 else 0) < d.ramp.value.steps
  }

  /** A restore that has to ramp and has no steps to do it in. */
  predicate HasNoSteps(d: Desk, a: Act, v: nat) {
    a.AskUndim? && d.dimmed && Steps(d.transition) == 0 && StopFade(d, a.luck).panel != v
  }

  lemma FrameInRange(d: Desk, works: bool)
    requires InRange(d)
    ensures InRange(Frame(d, works))
  {
  }

  lemma FrameKeeps(d: Desk, v: nat)
    requires Owner(d, v)
    ensures Owner(Frame(d, true), v)
  {
    hide Interpolate;
    FrameInRange(d, true);
  }

  /** Where a cancelled ramp leaves the panel. */
  lemma StopShows(d: Desk, v: nat, l: Luck)
    requires Owner(d, v) && Smooth(l)
    ensures d.dimmed ==> Owner(StopFade(d, l), v)
    ensures !d.dimmed ==> (StopFade(d, l).panel == v <==> !CutsRamp(d, AskDim(0, l)))
  {
    hide Interpolate;
    FrameKeeps(d, v);
    if !d.dimmed && d.ramp.Some? {
      var r := d.ramp.value;
      RampIsMonotone(r.from, r.to, r.made, r.steps, r.steps);
      if r.made < r.steps {
        RampIsMonotone(r.from, r.to, r.made + 1, r.steps, r.steps);
      }
    }
  }

  lemma TargetInRange(max: nat, minPercent: nat, percent: nat)
    requires max < U32
    ensures TargetFor(max, minPercent, percent) < U32
  {
  }

  lemma DimKeepsExactly(d: Desk, v: nat, percent: nat, l: Luck)
    requires Owner(d, v) && Smooth(l)
    ensures Owner(DimTo(d, percent, l), v) <==> !CutsRamp(d, AskDim(percent, l))
  {
    hide Interpolate, Steps, TargetFor;
    FrameInRange(d, l.lateWorks);
    StopShows(d, v, l);
    TargetInRange(d.max, d.minPercent, percent);
  }

  lemma UndimKeepsExactly(d: Desk, v: nat, l: Luck)
    requires Owner(d, v) && Smooth(l)
    ensures Owner(Restore(d, l), v) <==> !HasNoSteps(d, AskUndim(l), v)
  {
    hide Interpolate, Steps;
    FrameInRange(d, l.lateWorks);
    StopShows(d, v, l);
  }

  /** Among clean acts, exactly two lose the user's brightness. */
  lemma KeptExactly(d: Desk, v: nat, a: Act)
    requires Owner(d, v) && Clean(a)
    ensures Owner(Do(d, a), v) <==> !CutsRamp(d, a) && !HasNoSteps(d, a, v)
  {
    hide Interpolate, Steps, TargetFor, Owner, DimTo, Restore, Frame;
    match a
    case Step(_) => FrameKeeps(d, v);
    case AskDim(percent, l) => DimKeepsExactly(d, v, percent, l);
    case AskUndim(l) => UndimKeepsExactly(d, v, l);
    case NewSettings(_, _, _, _) => assert Owner(Do(d, a), v) by { ReloadKeeps(d, v, a); }
  }

  lemma ReloadKeeps(d: Desk, v: nat, a: Act)
    requires Owner(d, v) && Clean(a) && a.NewSettings?
    ensures Owner(Do(d, a), v)
  {
  }

  /** All along the way: clean acts, no dim that cuts a restore short, no
      restore without steps. */
  predicate Gentle(d: Desk, v: nat, acts: seq<Act>)
    decreases |acts|
  {
    acts != [] ==>
      && Clean(acts[0]) && !CutsRamp(d, acts[0]) && !HasNoSteps(d, acts[0], v)
      && Gentle(Do(d, acts[0]), v, acts[1..])
  }

  lemma {:induction false} RunKeeps(d: Desk, v: nat, acts: seq<Act>)
    requires Owner(d, v) && Gentle(d, v, acts)
    ensures Owner(DoAll(d, acts), v)
    decreases |acts|
  {
    hide Owner, Do, CutsRamp, HasNoSteps;
    if acts != [] {
      KeptExactly(d, v, acts[0]);
      RunKeeps(Do(d, acts[0]), v, acts[1..]);
    }
  }

  lemma {:induction false} RunOutShows(d: Desk, v: nat, works: nat -> bool, i: nat)
    requires Owner(d, v) && !d.dimmed && forall k :: works(k)
    ensures RunOut(d, works, i).panel == v
    decreases if d.ramp.Some? && d.ramp.value.Running() then d.ramp.value.steps - d.ramp.value.made else 0
  {
    hide Interpolate;
    if d.ramp.Some? {
      var r := d.ramp.value;
      if r.Running() {
        FrameKeeps(d, v);
        RunOutShows(Frame(d, works(i)), v, works, i + 1);
      } else {
        RampIsMonotone(r.from, r.to, r.made, r.steps, r.steps);
      }
    }
  }

  /** However many times the screen was dimmed and undimmed, and wherever in a
      fade the last restore comes, once it settles the panel shows exactly what
      the user had. */
  lemma BrightnessComesBack(d: Desk, v: nat, acts: seq<Act>, l: Luck, works: nat -> bool)
    requires Owner(d, v) && Gentle(d, v, acts + [AskUndim(l)]) && forall k :: works(k)
    ensures Settle(DoAll(d, acts + [AskUndim(l)]), works).panel == v
  {
    hide Owner, Do, CutsRamp, HasNoSteps;
    RunKeeps(d, v, acts + [AskUndim(l)]);
    LastAct(d, acts, AskUndim(l));
    UndimWakes(DoAll(d, acts), l);
    OwnerIsPresent(DoAll(d, acts + [AskUndim(l)]), v);
    RunOutShows(DoAll(d, acts + [AskUndim(l)]), v, works, 0);
  }

  lemma {:induction false} LastAct(d: Desk, acts: seq<Act>, a: Act)
    ensures DoAll(d, acts + [a]) == Do(DoAll(d, acts), a)
    decreases |acts|
  {
    if acts == [] {
      assert DoAll(Do(d, a), []) == Do(d, a);
    } else {
      assert (acts + [a])[1..] == acts[1..] + [a];
      LastAct(Do(d, acts[0]), acts[1..], a);
    }
  }

  lemma UndimWakes(d: Desk, l: Luck)
    ensures Do(d, AskUndim(l)).present == d.present
    ensures d.present ==> !Do(d, AskUndim(l)).dimmed
  {
    hide Interpolate, Steps;
  }

  lemma OwnerIsPresent(d: Desk, v: nat)
    requires Owner(d, v)
    ensures d.present
  {
  }

  /** Whatever was going on, from here on the brightness kept is the one the
      dim read. */
  lemma DimOwnsWhatItReads(d: Desk, percent: nat, l: Luck)
    requires InRange(d) && d.present && !d.dimmed && Smooth(l)
    ensures Owner(DimTo(d, percent, l), StopFade(d, l).panel)
  {
    hide Interpolate, Steps, TargetFor;
    FrameInRange(d, l.lateWorks);
    TargetInRange(d.max, d.minPercent, percent);
  }

  /** The three together, for one dim: it is undone at every point. */
  lemma DimThenRestore(d: Desk, percent: nat, first: Luck, acts: seq<Act>, last: Luck, works: nat -> bool)
    requires InRange(d) && d.present && !d.dimmed && Smooth(first)
    requires Gentle(DimTo(d, percent, first), StopFade(d, first).panel, acts + [AskUndim(last)])
    requires forall k :: works(k)
    ensures Settle(DoAll(DimTo(d, percent, first), acts + [AskUndim(last)]), works).panel == StopFade(d, first).panel
  {
    hide Owner, Do, DimTo, InRange;
    DimOwnsWhatItReads(d, percent, first);
    BrightnessComesBack(DimTo(d, percent, first), StopFade(d, first).panel, acts, last, works);
  }

  /** A restore that cannot read the panel has given the brightness up, unless
      the panel never left it. */
  lemma UnreadableLosesIt(d: Desk, v: nat, l: Luck)
    requires Owner(d, v) && d.dimmed && l.lateWorks && !l.canRead
    ensures Owner(Restore(d, l), v) <==> StopFade(d, l).panel == v
  {
    hide Interpolate, Steps;
    FrameInRange(d, l.lateWorks);
  }

  // ---------------------------------------- somebody else changes the panel

  predicate WhileDimmed(a: Act) {
    a.Step? || a.AskDim? || (a.NewSettings? && a.device.None?)
  }

  lemma {:induction false} NothingMoves(d: Desk, acts: seq<Act>)
    requires d.present && d.dimmed && (d.ramp.Some? ==> !d.ramp.value.Running())
    requires forall a | a in acts :: WhileDimmed(a)
    ensures var e := DoAll(d, acts);
            e.present && e.dimmed && e.panel == d.panel && e.written == d.written && e.preDim == d.preDim
            && (e.ramp.Some? ==> !e.ramp.value.Running())
    decreases |acts|
  {
    if acts != [] {
      assert WhileDimmed(acts[0]);
      NothingMoves(Do(d, acts[0]), acts[1..]);
    }
  }

  ghost predicate HasStep(acts: seq<Act>) {
    exists a :: a in acts && a.Step?
  }

  predicate Fading(d: Desk) {
    d.ramp.Some? && d.ramp.value.Running()
  }

  /** Dimmed, and showing what somebody else has written. */
  predicate Overwritten(d: Desk, v: nat, x: nat) {
    InRange(d) && v < U32 && d.present && d.dimmed && d.preDim == Some(v) && d.panel == x != d.written
  }

  lemma StepOverwrites(d: Desk, v: nat, x: nat)
    requires Overwritten(d, v, x) && Fading(d)
    ensures Owner(Frame(d, true), v) && Frame(d, true).dimmed
  {
    hide Interpolate;
    FrameInRange(d, true);
  }

  lemma {:induction false} OwnedWhileDimmed(d: Desk, v: nat, acts: seq<Act>)
    requires Owner(d, v) && d.dimmed && forall a | a in acts :: WhileDimmed(a) && Clean(a)
    ensures Owner(DoAll(d, acts), v) && DoAll(d, acts).dimmed
    decreases |acts|
  {
    if acts != [] {
      hide Owner, Frame;
      assert WhileDimmed(acts[0]) && Clean(acts[0]);
      assert !CutsRamp(d, acts[0]) && !HasNoSteps(d, acts[0], v);
      KeptExactly(d, v, acts[0]);
      assert Do(d, acts[0]).dimmed by { StaysDimmed(d, acts[0]); }
      OwnedWhileDimmed(Do(d, acts[0]), v, acts[1..]);
    }
  }

  lemma StaysDimmed(d: Desk, a: Act)
    requires d.dimmed && WhileDimmed(a)
    ensures Do(d, a).dimmed
  {
  }

  lemma {:induction false} OverwrittenUntilAStep(d: Desk, v: nat, x: nat, acts: seq<Act>)
    requires Overwritten(d, v, x) && forall a | a in acts :: WhileDimmed(a) && Clean(a)
    ensures var e := DoAll(d, acts);
            if Fading(d) && HasStep(acts) then Owner(e, v) && e.dimmed
            else Overwritten(e, v, x) && (Fading(e) <==> Fading(d))
    decreases |acts|
  {
    if acts != [] {
      hide Owner, Frame;
      assert forall a :: a in acts <==> a == acts[0] || a in acts[1..];
      assert WhileDimmed(acts[0]) && Clean(acts[0]);
      if acts[0].Step? {
        if Fading(d) {
          assert HasStep(acts);
          StepOverwrites(d, v, x);
          OwnedWhileDimmed(Do(d, acts[0]), v, acts[1..]);
        } else {
          NoFrame(d);
          OverwrittenUntilAStep(d, v, x, acts[1..]);
        }
      } else {
        OverwrittenUntilAStep(Do(d, acts[0]), v, x, acts[1..]);
        assert HasStep(acts) <==> HasStep(acts[1..]);
      }
    }
  }

  lemma NoFrame(d: Desk)
    requires !Fading(d)
    ensures Frame(d, true) == d
  {
  }

  lemma RestoreShows(d: Desk, v: nat, l: Luck, works: nat -> bool)
    requires Owner(d, v) && d.dimmed && Smooth(l) && forall k :: works(k)
    ensures Settle(Restore(d, l), works).panel == if Steps(d.transition) == 0 then StopFade(d, l).panel else v
  {
    hide Interpolate, Owner;
    OwnerIsPresent(d, v);
    if Steps(d.transition) == 0 {
      hide StopFade;
      NoStepsNoRestore(d, l, works);
    } else {
      UndimKeepsExactly(d, v, l);
      UndimWakes(d, l);
      RunOutShows(Restore(d, l), v, works, 0);
    }
  }

  lemma NoStepsNoRestore(d: Desk, l: Luck, works: nat -> bool)
    requires d.present && d.dimmed && Steps(d.transition) == 0
    ensures Settle(Restore(d, l), works).panel == StopFade(d, l).panel
  {
    hide Interpolate, Steps;
  }

  /** A panel somebody else sets while it is dimmed is left alone exactly if
      they chose another value than the controller's last one, and the fade, if
      it is still running, makes no further step. Otherwise it is taken back to
      what it showed before the dim, as far as there are steps to do it in. */
  lemma ForeignChangeExactly(d: Desk, v: nat, x: nat, acts: seq<Act>, l: Luck, works: nat -> bool)
    requires Owner(d, v) && d.dimmed && x < U32 && forall a | a in acts :: WhileDimmed(a) && Clean(a)
    requires Smooth(l) && forall k :: works(k)
    ensures var e := DoAll(Do(d, Elsewhere(x)), acts);
            Settle(Restore(e, l), works).panel ==
              if x != d.written && !(Fading(d) && (l.late || HasStep(acts))) then x
              else if Steps(e.transition) == 0 then StopFade(e, l).panel
              else v
  {
    hide Interpolate, Steps, Restore, Settle, StopFade, DoAll, HasStep;
    var d' := Do(d, Elsewhere(x));
    var e := DoAll(d', acts);
    if x == d.written {
      OwnedWhileDimmed(d', v, acts);
      RestoreShows(e, v, l, works);
    } else {
      OverwrittenUntilAStep(d', v, x, acts);
      if Fading(d) && HasStep(acts) {
        RestoreShows(e, v, l, works);
      } else {
        RestoreOverwritten(e, v, x, l, works);
      }
    }
  }

  lemma RestoreOverwritten(d: Desk, v: nat, x: nat, l: Luck, works: nat -> bool)
    requires Overwritten(d, v, x) && Smooth(l) && forall k :: works(k)
    ensures Settle(Restore(d, l), works).panel ==
              if !(Fading(d) && l.late) then x else if Steps(d.transition) == 0 then StopFade(d, l).panel else v
  {
    hide Interpolate, Steps, Owner;
    if Fading(d) && l.late {
      StepOverwrites(d, v, x);
      var l' := l.(late := false);
      hide Settle, FadeTo;
      assert StopFade(d, l) == StopFade(Frame(d, true), l');
      assert Restore(d, l) == Restore(Frame(d, true), l');
      RestoreShows(Frame(d, true), v, l', works);
    }
  }

  /** So a brightness key pressed while the dim is still fading is lost to the
      next frame. */
  lemma KeyPressLostInFade(d: Desk, v: nat, x: nat, l: Luck, works: nat -> bool)
    requires Owner(d, v) && d.dimmed && Fading(d) && x < U32 && Smooth(l) && Steps(d.transition) != 0 && forall k :: works(k)
    ensures Settle(Restore(Do(Do(d, Elsewhere(x)), Step(true)), l), works).panel == v
  {
    hide Interpolate, Steps, Restore, Settle, StopFade, Frame;
    var acts := [Step(true)];
    assert acts[0] in acts && acts[1..] == [];
    assert DoAll(Do(d, Elsewhere(x)), acts) == DoAll(Do(Do(d, Elsewhere(x)), Step(true)), []);
    ForeignChangeExactly(d, v, x, acts, l, works);
    assert Do(Do(d, Elsewhere(x)), Step(true)).transition == d.transition by { FrameLeaves(Do(d, Elsewhere(x))); }
  }

  lemma FrameLeaves(d: Desk)
    ensures Frame(d, true).transition == d.transition
  {
  }

  // ------------------------------------------------------ fades of no steps

  /** A fade has no steps exactly if its whole 16 ms steps are a positive
      multiple of 2^32, that is, if its length falls into the first of every
      2^32 steps after the first 2^32. */
  lemma StepsZeroExactly(transition: Duration)
    ensures var frames := transition / MILLISECOND / STEP_MILLIS;
            Steps(transition) == 0 <==> frames > 0 && frames % U32 == 0
    ensures Steps(transition) == 0 <==>
              exists n: nat :: n > 0 && InTheGap(n, transition)
  {
    var frames := transition / MILLISECOND / STEP_MILLIS;
    FramesSpan(transition);
    if frames > 0 && frames % U32 == 0 {
      var n := frames / U32;
      assert frames == n * U32;
      assert InTheGap(n, transition);
    }
    if n: nat :| n > 0 && InTheGap(n, transition) {
      GapIsOneStep(n, frames, transition);
    }
  }

  /** The `n`-th length, in steps of 2^32, at which the count is cut to zero. */
  predicate InTheGap(n: nat, transition: Duration) {
    n * U32 * STEP_MILLIS * MILLISECOND <= transition < (n * U32 + 1) * STEP_MILLIS * MILLISECOND
  }

  lemma FramesSpan(transition: Duration)
    ensures var frames := transition / MILLISECOND / STEP_MILLIS;
            frames * STEP_MILLIS * MILLISECOND <= transition < (frames + 1) * STEP_MILLIS * MILLISECOND
  {
  }

  lemma GapIsOneStep(n: nat, frames: nat, transition: Duration)
    requires n > 0 && InTheGap(n, transition)
    requires frames * STEP_MILLIS * MILLISECOND <= transition < (frames + 1) * STEP_MILLIS * MILLISECOND
    ensures frames == n * U32 && frames > 0 && frames % U32 == 0
  {
  }

  /** A fade shorter than 2^32 steps takes as many frames of 16 ms as fit into its
      transition, and at least one. */
  lemma StepsFillTheTransition(transition: Duration)
    requires transition < U32 * 16 * MILLISECOND
    ensures var n := Steps(transition);
            if transition < 16 * MILLISECOND then n == 1
            else n * 16 * MILLISECOND <= transition < (n + 1) * 16 * MILLISECOND
  {
    FramesSpan(transition);
    assert transition / MILLISECOND / STEP_MILLIS < U32;
  }

  /** Every fade shorter than 2^32 steps has one. */
  lemma StepsPositive(transition: Duration)
    requires transition < U32 * STEP_MILLIS * MILLISECOND
    ensures Steps(transition) > 0
  {
    assert transition / MILLISECOND < U32 * STEP_MILLIS;
  }

  lemma LongestFadeHasNoSteps()
    ensures Steps(U32 * STEP_MILLIS * MILLISECOND) == 0
  {
    assert U32 * STEP_MILLIS * MILLISECOND / MILLISECOND == U32 * STEP_MILLIS;
    assert U32 * STEP_MILLIS / STEP_MILLIS == U32;
  }

  /** With no steps to dim in, the panel never moves, so nothing is lost. */
  lemma NoStepsNoDim(d: Desk, v: nat, percent: nat, l: Luck, acts: seq<Act>)
    requires Owner(d, v) && !d.dimmed && Smooth(l) && !CutsRamp(d, AskDim(percent, l)) && Steps(d.transition) == 0
    requires forall a | a in acts :: WhileDimmed(a)
    ensures DoAll(DimTo(d, percent, l), acts).panel == v
  {
    hide Interpolate, Steps, TargetFor;
    StopShows(d, v, l);
    NothingMoves(DimTo(d, percent, l), acts);
  }

  /** The panel shows `t` or is on its way there. */
  predicate Aims(d: Desk, t: nat) {
    Owner(d.(dimmed := false, preDim := None), t)
  }

  lemma AimKept(d: Desk, t: nat, a: Act)
    requires Aims(d, t) && d.dimmed && WhileDimmed(a) && Clean(a)
    ensures Aims(Do(d, a), t) && Do(d, a).dimmed
  {
    hide Interpolate, Owner;
    if a.Step? {
      var e := d.(dimmed := false, preDim := None);
      FrameKeeps(e, t);
      assert Frame(d, true).(dimmed := false, preDim := None) == Frame(e, true);
    } else {
      AimIgnoresSettings(d, t, Do(d, a));
    }
  }

  lemma AimIgnoresSettings(d: Desk, t: nat, e: Desk)
    requires Aims(d, t) && e == d.(minPercent := e.minPercent, transition := e.transition)
    ensures Aims(e, t)
  {
  }

  lemma {:induction false} AimKeptAlong(d: Desk, t: nat, acts: seq<Act>)
    requires Aims(d, t) && d.dimmed && forall a | a in acts :: WhileDimmed(a) && Clean(a)
    ensures Aims(DoAll(d, acts), t)
    decreases |acts|
  {
    if acts != [] {
      hide Aims, Do;
      assert WhileDimmed(acts[0]) && Clean(acts[0]);
      AimKept(d, t, acts[0]);
      AimKeptAlong(Do(d, acts[0]), t, acts[1..]);
    }
  }

  /** A fade looks at its ramp and the panel only. */
  lemma {:induction false} RunOutFrame(d: Desk, e: Desk, works: nat -> bool, i: nat)
    requires d.ramp == e.ramp && d.panel == e.panel
    ensures RunOut(d, works, i).panel == RunOut(e, works, i).panel
    decreases if d.ramp.Some? && d.ramp.value.Running() then d.ramp.value.steps - d.ramp.value.made else 0
  {
    hide Interpolate;
    if d.ramp.Some? && d.ramp.value.Running() {
      RunOutFrame(Frame(d, works(i)), Frame(e, works(i)), works, i + 1);
    }
  }

  lemma AimArrives(d: Desk, t: nat, works: nat -> bool)
    requires Aims(d, t) && forall k :: works(k)
    ensures Settle(d, works).panel == t
  {
    hide Owner;
    var e := d.(dimmed := false, preDim := None);
    RunOutShows(e, t, works, 0);
    RunOutFrame(d, e, works, 0);
  }

  /** A dim on a working panel arrives at its target, whatever else comes while
      it fades, exactly if its fade has steps or there is nowhere to go. */
  lemma DimArrivesExactly(d: Desk, percent: nat, l: Luck, acts: seq<Act>, works: nat -> bool)
    requires InRange(d) && d.present && !d.dimmed && Smooth(l) && forall k :: works(k)
    requires forall a | a in acts :: WhileDimmed(a) && Clean(a)
    ensures var s := StopFade(d, l);
            var target := Min(TargetFor(s.max, s.minPercent, percent), s.panel);
            Settle(DoAll(DimTo(d, percent, l), acts), works).panel == target
            <==> Steps(d.transition) != 0 || target == s.panel
    ensures percent <= 100 && d.minPercent <= 100 && Steps(d.transition) != 0 ==>
              var was, shown := StopFade(d, l).panel, Settle(DoAll(DimTo(d, percent, l), acts), works).panel;
              && shown == Min(d.max * Max(d.minPercent, percent) / 100, was)
              && (198 <= d.max ==> ToPercent(shown, d.max) == Min(Max(d.minPercent, percent), ToPercent(was, d.max)))
  {
    hide Interpolate, Steps, TargetFor, ToPercent;
    if percent <= 100 && d.minPercent <= 100 {
      TargetIsThePercentage(d.max, d.minPercent, percent);
      if 198 <= d.max {
        var was, asked := StopFade(d, l).panel, d.max * Max(d.minPercent, percent) / 100;
        ToPercentGrows(Min(asked, was), was, d.max);
        ToPercentGrows(Min(asked, was), asked, d.max);
      }
    }
    var s := StopFade(d, l);
    var target := Min(TargetFor(s.max, s.minPercent, percent), s.panel);
    FrameInRange(d, l.lateWorks);
    TargetInRange(d.max, d.minPercent, percent);
    var e := DimTo(d, percent, l);
    if Steps(d.transition) != 0 || target == s.panel {
      hide DimTo, StopFade;
      assert Aims(e, target) && e.dimmed by { DimAims(d, percent, l); }
      AimKeptAlong(e, target, acts);
      AimArrives(DoAll(e, acts), target, works);
    } else {
      NothingMoves(e, acts);
    }
  }

  lemma DimAims(d: Desk, percent: nat, l: Luck)
    requires InRange(d) && d.present && !d.dimmed && Smooth(l)
    requires var s := StopFade(d, l);
             Steps(d.transition) != 0 || Min(TargetFor(s.max, s.minPercent, percent), s.panel) == s.panel
    ensures var s := StopFade(d, l);
            Aims(DimTo(d, percent, l), Min(TargetFor(s.max, s.minPercent, percent), s.panel)) && DimTo(d, percent, l).dimmed
  {
    hide Interpolate, Steps, TargetFor;
    FrameInRange(d, l.lateWorks);
    TargetInRange(d.max, d.minPercent, percent);
  }
}
