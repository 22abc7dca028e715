/** The two thresholds of `low_battery` keep noise in the readings from
    switching modes back and forth. */
module Hysteresis {
  import opened Types
  import opened Transition

  /** `low` after a sequence of readings under one threshold. */
  function LowAfter(t: nat, low: bool, readings: seq<nat>): bool {
    if readings == [] then low
    else ComputeLow(t, LowAfter(t, low, readings[..|readings| - 1]), Some(readings[|readings| - 1]))
  }

  /** How often `low` changed along the way. */
  function Flips(t: nat, low: bool, readings: seq<nat>): nat {
    if readings == [] then 0
    else
      var before := readings[..|readings| - 1];
      Flips(t, low, before) + (if LowAfter(t, low, readings) != LowAfter(t, low, before) then 1 else 0)
  }

  function Apart(a: nat, b: nat): nat {
    if a <= b then b - a else a - b
  }

  function Variation(readings: seq<nat>): nat {
    if |readings| <= 1 then 0
    else
      var before := readings[..|readings| - 1];
      Variation(before) + Apart(readings[|readings| - 1], before[|before| - 1])
  }

  /** The way back to the threshold that last flipped `low`. */
  function Distance(t: nat, low: bool, percent: nat): nat {
    if low then Max(0, percent - t) else Max(0, ClearsAt(t) - percent)
  }

  /** One reading: a flip uses up the distance, and costs the whole band. */
  lemma ReadingPays(t: nat, low: bool, from: nat, to: nat)
    requires t <= 100
    ensures var low' := ComputeLow(t, low, Some(to));
            && Distance(t, low', to) + (if low' != low then ClearsAt(t) - t else 0) <= Distance(t, low, from) + Apart(to, from)
            && (low' != low ==> Distance(t, low', to) == 0)
  {
  }

  /** Every flip but the first has had to cross the whole band. */
  lemma {:induction false} FlipsPayForTheBand(t: nat, low: bool, readings: seq<nat>)
    requires t <= 100 && readings != []
    ensures var last := readings[|readings| - 1];
            Flips(t, low, readings) == 0
            || (Flips(t, low, readings) - 1) * (ClearsAt(t) - t) + Distance(t, LowAfter(t, low, readings), last)
               <= Variation(readings)
  {
    hide ComputeLow, ClearsAt, Distance, Apart;
    var before := readings[..|readings| - 1];
    var was, last := LowAfter(t, low, before), readings[|readings| - 1];
    ReadingPays(t, was, if before == [] then last else before[|before| - 1], last);
    var n, band := Flips(t, low, before), ClearsAt(t) - t;
    assert Flips(t, low, readings) == n + if LowAfter(t, low, readings) != was then 1 else 0;
    if before == [] {
      assert n == 0;
    } else {
      FlipsPayForTheBand(t, low, before);
      assert Variation(readings) == Variation(before) + Apart(last, before[|before| - 1]);
    }
    assert (n - 1) * band + band == n * band;
  }

  /** The number of mode switches a discharge can cause is bounded by how far
      the readings really moved, not by how many there were. */
  lemma FlappingIsBounded(t: nat, low: bool, readings: seq<nat>)
    requires t <= 100
    ensures Flips(t, low, readings) > 0 ==>
              (Flips(t, low, readings) - 1) * (Min(t + 5, 100) - t) <= Variation(readings)
  {
    if readings != [] {
      FlipsPayForTheBand(t, low, readings);
    }
  }

  /** Readings that stay inside the band never flip it at all. */
  lemma {:induction false} QuietInTheBand(t: nat, low: bool, readings: seq<nat>)
    requires forall i :: 0 <= i < |readings| ==> t < readings[i] < Min(t + 5, 100)
    ensures LowAfter(t, low, readings) == low && Flips(t, low, readings) == 0
  {
    if readings != [] {
      QuietInTheBand(t, low, readings[..|readings| - 1]);
    }
  }

  // ------------------------------------------------------- in the engine

  function AfterReadings(c: Core, readings: seq<nat>): Core {
    if readings == [] then c
    else Handle(AfterReadings(c, readings[..|readings| - 1]), Battery(readings[|readings| - 1])).core
  }

  /** How many of the readings made the engine send anything at all. */
  function Switches(c: Core, readings: seq<nat>): nat {
    if readings == [] then 0
    else
      var before := readings[..|readings| - 1];
      var o := Handle(AfterReadings(c, before), Battery(readings[|readings| - 1]));
      Switches(c, before) + (if o.cmds != [] then 1 else 0)
  }

  lemma ReadingInEngine(c: Core, percent: nat)
    ensures var o := Handle(c, Battery(percent));
            && o.core.low == ComputeLow(c.config.auto.lowBatteryPercent, c.low, Some(percent))
            && o.core.config == c.config
            && (o.core.low == c.low ==> o.cmds == [])
  {
    hide ComputeLow, AutoModeName, ModeChanged;
  }

  lemma {:induction false} EngineFollows(c: Core, readings: seq<nat>)
    ensures var t := c.config.auto.lowBatteryPercent;
            var d := AfterReadings(c, readings);
            && d.config == c.config && d.low == LowAfter(t, c.low, readings)
            && Switches(c, readings) <= Flips(t, c.low, readings)
  {
    hide Handle, ComputeLow;
    if readings != [] {
      var before := readings[..|readings| - 1];
      EngineFollows(c, before);
      ReadingInEngine(AfterReadings(c, before), readings[|readings| - 1]);
    }
  }

  /** So noise in the readings cannot make the engine switch modes more often
      than their total variation pays for. */
  lemma SwitchingIsBounded(c: Core, readings: seq<nat>)
    requires Validate(c.config).Ok?
    ensures var t := c.config.auto.lowBatteryPercent;
            Switches(c, readings) > 0 ==> (Switches(c, readings) - 1) * (Min(t + 5, 100) - t) <= Variation(readings)
  {
    hide Switches, Flips, Variation;
    var t := c.config.auto.lowBatteryPercent;
    EngineFollows(c, readings);
    FlappingIsBounded(t, c.low, readings);
    Scale(Switches(c, readings) - 1, Flips(t, c.low, readings) - 1, Min(t + 5, 100) - t);
  }
}
