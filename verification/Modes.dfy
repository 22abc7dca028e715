/** The configuration, the mode and the idle stages in effect, along every run:
    which config it is, that its modes make sense, and that the mode the daemon
    says it is in is the one that was applied last. */
module Modes {
  import opened Types
  import opened Transition
  import opened Effects
  import opened Invariants
  import opened Discipline
  import A = Agent
  import opened Choices
  import opened Outcomes
  import opened Sends
  import opened Fields
  import opened World
  import opened Safety
  import opened Turns
  import opened Histories
  import opened Runs

  // ------------------------------------------------------- a sensible config

  predicate NotAfter(first: Option<Duration>, second: Option<Duration>) {
    first.Some? && second.Some? ==> first.value <= second.value
  }

  /** Dimming, then the screen, then sleep, as far as they are enabled, and none
      later than the longest timeout there is. */
  predicate Ordered(s: Stages) {
    && NotAfter(s.dim, s.screenOff) && NotAfter(s.screenOff, s.sleep) && NotAfter(s.dim, s.sleep)
    && NotAfter(s.dim, Some(MAX_TIMEOUT)) && NotAfter(s.screenOff, Some(MAX_TIMEOUT)) && NotAfter(s.sleep, Some(MAX_TIMEOUT))
  }

  /** A mode validates exactly if the stages it stands for come in order. */
  lemma ValidModesAreOrdered(config: Config, name: string, s: Stages)
    requires name in config.modes && StagesAre(s, config, name)
    ensures ValidateMode(config.modes[name]).Ok? <==> Ordered(s)
  {
  }

  /** A config validates exactly if the stages of every mode come in order, every
      mode that auto-switching can want exists, percentages are percentages, and
      the alarm is at least two minutes ahead and outside its own slack. */
  lemma ValidConfigsExactly(c: Config)
    ensures Validate(c).Ok? <==>
              && (forall name, s :: name in c.modes && StagesAre(s, c, name) ==> Ordered(s))
              && (c.auto.enabled ==> forall ac, low :: Preferred(c.auto, ac, low) in c.modes)
              && c.auto.lowBatteryPercent <= 100 && c.server.criticalPercent <= 100 && c.dimPercent <= 100 && c.minPercent <= 100
              && c.server.checkInterval >= 120 * SECOND && c.server.alarmSlack < c.server.checkInterval
  {
    hide ValidateMode, Ordered;
    forall name | name in c.modes ensures ValidateMode(c.modes[name]).Ok? <==> forall s :: StagesAre(s, c, name) ==> Ordered(s) {
      ModeValidates(c, name);
    }
    assert Preferred(c.auto, true, false) == c.auto.onAc;
    assert Preferred(c.auto, false, false) == c.auto.onBattery;
    assert Preferred(c.auto, false, true) == c.auto.onLowBattery;
  }

  lemma ModeValidates(c: Config, name: string)
    requires name in c.modes
    ensures ValidateMode(c.modes[name]).Ok? <==> forall s :: StagesAre(s, c, name) ==> Ordered(s)
  {
    hide ValidateMode, Ordered;
    var own := StagesFromMode(c.modes[name]);
    assert StagesAre(own, c, name);
    forall s | StagesAre(s, c, name) ensures ValidateMode(c.modes[name]).Ok? <==> Ordered(s) {
      ValidModesAreOrdered(c, name, s);
    }
  }

  // ------------------------------------------------------------- the reload

  /** A reload puts the new config into effect at once: low battery is looked at
      again, an automatic mode chosen again, and the mode applied. */
  lemma ReloadExactly(c: Core, config: Config)
    ensures var d := SetConfig(c, config).core;
            && d == c.(config := config, low := d.low, mode := Settled(d))
            && d.low == (c.battery.Some? && LowAt(config.auto.lowBatteryPercent, c.low, c.battery.value))
            && (c.mode.Manual? ==> d.mode == c.mode)
            && forall cmd :: cmd in SetConfig(c, config).cmds <==> IsMode(d, cmd)
  {
    hide ModeCommands, IsMode;
    ModeSends(SetConfig(c, config).core);
  }

  /** The config file parses and validates, and a reload reads it. */
  predicate Reloads(w: World, m: Move) {
    && m.Drain? && w.queue != [] && w.queue[0].Reload?
    && m.answer.parsed.Some? && Validate(m.answer.parsed.value).Ok?
  }

  /** The one the daemon started with, or the last one accepted. */
  function LastConfig(b: Boot, ws: seq<World>, ms: seq<Move>, k: nat): Config
    requires k <= |ms| <= |ws|
  {
    if k == 0 then b.config
    else if Reloads(ws[k - 1], ms[k - 1]) then ms[k - 1].answer.parsed.value
    else LastConfig(b, ws, ms, k - 1)
  }

  lemma ConfigTurn(w: World, m: Move)
    requires Inv(w) && Legal(w, m)
    ensures Perform(w, m).core.config == if Reloads(w, m) then m.answer.parsed.value else w.core.config
  {
    hide Inv, Perform, Handle, Legal, SetConfig, Virtual, After;
    Up(w, m);
    if Fed(w, m).Some? {
      FedTurn(w, m);
      FedIsNoReload(w, m);
      HandleSame(w.core, Fed(w, m).value);
    } else if Loaded(w, m).Some? {
      LoadedTurn(w, m);
      ReloadExactly(w.core, Loaded(w, m).value);
    } else {
      PlainTurn(w, m);
    }
  }

  lemma Up(w: World, m: Move)
    requires Legal(w, m)
    ensures !w.down
  {
  }

  lemma FedIsNoReload(w: World, m: Move)
    requires Fed(w, m).Some?
    ensures !Reloads(w, m)
  {
    hide ArmRtc, WakeEvent;
  }

  /** The config in effect is always that one, and valid. */
  lemma {:induction false} ConfigExactly(b: Boot, ws: seq<World>, ms: seq<Move>, k: nat)
    requires IsRun(b, ws, ms) && k < |ws|
    ensures ws[k].core.config == LastConfig(b, ws, ms, k) && Validate(ws[k].core.config).Ok?
  {
    hide Inv, Perform, Legal, Start, Validate;
    if k == 0 {
      StartExactly(b);
    } else {
      ConfigExactly(b, ws, ms, k - 1);
      RunKeepsInv(b, ws, ms, k - 1);
      assert Legal(ws[k - 1], ms[k - 1]) && ws[k] == Perform(ws[k - 1], ms[k - 1]);
      ConfigTurn(ws[k - 1], ms[k - 1]);
    }
  }

  /** So what the agent has been told comes in order too. */
  lemma StagesInOrder(b: Boot, ws: seq<World>, ms: seq<Move>, k: nat)
    requires IsRun(b, ws, ms) && k < |ws| && Drained(ws[k]) && !ws[k].core.state.PastGrace()
    ensures Ordered(ws[k].fx.stages)
  {
    StagesEndToEnd(b, ws, ms, k);
    ConfigExactly(b, ws, ms, k);
    ValidConfigsExactly(ws[k].core.config);
  }

  /** Was the RTC there when the daemon last looked for it: at startup, or when a
      reload changed `[server]`? */
  function LastLook(b: Boot, ws: seq<World>, ms: seq<Move>, k: nat): bool
    requires k <= |ms| <= |ws|
  {
    if k == 0 then b.discovered
    else if Reloads(ws[k - 1], ms[k - 1]) && ms[k - 1].answer.parsed.value.server != ws[k - 1].core.config.server then
      ms[k - 1].answer.discovered
    else LastLook(b, ws, ms, k - 1)
  }

  /** The daemon has a handle exactly if the config in effect has the server
      enabled and the RTC was there, and it is for the device of that config. */
  lemma {:induction false} HandleExactly(b: Boot, ws: seq<World>, ms: seq<Move>, k: nat)
    requires IsRun(b, ws, ms) && k < |ws|
    ensures var server := ws[k].core.config.server;
            ws[k].rtc == if server.enabled && LastLook(b, ws, ms, k) then Some(server.rtcDevice) else None
  {
    hide Inv, Perform, Legal, Start, Validate, Load;
    if k == 0 {
      StartExactly(b);
      StartsWithHandle(b);
    } else {
      HandleExactly(b, ws, ms, k - 1);
      RunKeepsInv(b, ws, ms, k - 1);
      var w, m := ws[k - 1], ms[k - 1];
      assert Legal(w, m) && ws[k] == Perform(w, m);
      ConfigTurn(w, m);
      HandleTurn(w, m);
      ReloadsLoads(w, m);
    }
  }

  lemma StartsWithHandle(b: Boot)
    ensures Start(b).rtc == if b.config.server.enabled && b.discovered then Some(b.config.server.rtcDevice) else None
  {
    hide StartOut;
  }

  lemma ReloadsLoads(w: World, m: Move)
    ensures Reloads(w, m) <==> Loaded(w, m).Some?
    ensures Reloads(w, m) ==> Loaded(w, m).value == m.answer.parsed.value
  {
    hide Validate;
  }

  // ------------------------------------------------------------- the startup

  /** What a daemon starts as: in the cycle exactly if it was and there still is
      no power, in the mode the user had chosen if there still is such a mode. */
  lemma StartExactly(b: Boot)
    ensures var c := Start(b).core;
            && c.config == b.config && c.ac == b.power.ac && c.battery == b.power.battery
            && c.low == (b.power.battery.Some? && b.power.battery.value <= b.config.auto.lowBatteryPercent)
            && c.mode == (if b.savedMode.Some? && b.savedMode.value in b.config.modes then Manual(b.savedMode.value)
                          else Auto(Wanted(b.config, "", c.ac, c.low)))
            && c.state == (if b.config.server.enabled && !b.power.ac && b.wasInCycle then LongSleep(Checking) else Active)
            && c.hibernateAvailable == (b.logind == Some(true)) && !c.interrupted && c.external == []
  {
    hide ModeCommands;
  }

  lemma StartsFrom(b: Boot)
    ensures var c := StartCore(b); c.state == Active && c.config == b.config && c.ac == b.power.ac
  {
  }

  /** And what it does first: the mode is applied, and a cycle has its window. */
  lemma StartSendsExactly(b: Boot)
    ensures var c, q := Start(b).core, Start(b).queue;
            && (forall name :: ApplyMode(name) in q <==> name == c.mode.name != "")
            && (StartTimer(AwakeWindow, b.config.server.awakeWindow) in q <==> c.state.LongSleep?)
  {
    hide ModeCommands, StagesDue, StartCore, StartOut;
    StartOutShape(b);
    ModeSends(StartCore(b));
    StartsFrom(b);
  }

  // ---------------------------------------------------- the mode in effect

  /** The last mode applied, if `q` is carried out after `last` was. */
  function LastApplied(last: Option<string>, q: seq<Command>): Option<string>
    decreases |q|
  {
    if q == [] then last else LastApplied(if q[0].ApplyMode? then Some(q[0].name) else last, q[1..])
  }

  /** The last `ApplyMode` that has been executed. */
  function Applied(ws: seq<World>, ms: seq<Move>, k: nat): Option<string>
    requires k <= |ms| <= |ws|
  {
    if k == 0 then None
    else
      var w, m := ws[k - 1], ms[k - 1];
      if m.Drain? && w.queue != [] && w.queue[0].ApplyMode? then Some(w.queue[0].name) else Applied(ws, ms, k - 1)
  }

  lemma {:induction false} LastConcat(last: Option<string>, p: seq<Command>, q: seq<Command>)
    ensures LastApplied(last, p + q) == LastApplied(LastApplied(last, p), q)
    decreases |p|
  {
    if p == [] {
      assert p + q == q;
    } else {
      assert (p + q)[1..] == p[1..] + q;
      LastConcat(if p[0].ApplyMode? then Some(p[0].name) else last, p[1..], q);
    }
  }

  lemma {:induction false} OnlyOneApplied(last: Option<string>, q: seq<Command>, name: string)
    requires forall other :: ApplyMode(other) in q ==> other == name
    ensures LastApplied(last, q) == if ApplyMode(name) in q then Some(name) else last
    decreases |q|
  {
    if q != [] {
      assert forall cmd :: cmd in q <==> cmd == q[0] || cmd in q[1..];
      OnlyOneApplied(if q[0].ApplyMode? then Some(q[0].name) else last, q[1..], name);
    }
  }

  /** What is sent about the mode is about the new one, and something is if it
      has changed. */
  lemma SentAboutMode(w: World, m: Move)
    requires Inv(w) && Legal(w, m)
    ensures var mode := Perform(w, m).core.mode;
            && (forall name :: ApplyMode(name) in Sent(w, m) ==> name == mode.name != "")
            && (mode.name != w.core.mode.name && mode.name != "" ==> ApplyMode(mode.name) in Sent(w, m))
  {
    hide Inv, Perform, Legal, Handle, SetConfig, Virtual, After, Load, Found;
    Up(w, m);
    if Fed(w, m).Some? {
      FedTurn(w, m);
      EventAboutMode(w, Fed(w, m).value);
    } else if Loaded(w, m).Some? {
      LoadedTurn(w, m);
      ReloadExactly(w.core, Loaded(w, m).value);
    } else {
      PlainTurn(w, m);
    }
  }

  lemma EventAboutMode(w: World, e: Event)
    requires Inv(w) && !w.down
    ensures var o := Handle(w.core, e);
            && (forall name :: ApplyMode(name) in o.cmds ==> name == o.core.mode.name != "")
            && (o.core.mode != w.core.mode && o.core.mode.name != "" ==> ApplyMode(o.core.mode.name) in o.cmds)
  {
    hide Inv, Handle, NextMode, NextState, DueHere, Dispatch, Announce, AutoModeOk;
    InvInOrder(w);
    FieldsExactly(w.core, e);
    DispatchSends(w.core, e);
    var d := Handle(w.core, e).core;
    forall name ensures ApplyMode(name) in Handle(w.core, e).cmds <==> name == d.mode.name != "" && AppliesMode(w.core, e, d.state, d.mode) {
      HandleIs(w.core, e, ApplyMode(name));
      AnnouncesOnly(w.core.state, d, ApplyMode(name));
      ApplyDue(w.core, e, d, name);
    }
  }

  lemma ApplyDue(c: Core, e: Event, d: Core, name: string)
    ensures Ours(ApplyMode(name))
    ensures DueHere(c, e, d.state, d.mode, ApplyMode(name)) <==> name == d.mode.name != "" && AppliesMode(c, e, d.state, d.mode)
  {
    hide AppliesMode;
  }

  /** Counting what is still in the queue, the last mode applied is always the
      one in effect; with the queue drained it has been applied. */
  lemma {:induction false} ModeIsApplied(b: Boot, ws: seq<World>, ms: seq<Move>, k: nat)
    requires IsRun(b, ws, ms) && k < |ws|
    ensures ws[k].core.mode.name != "" ==> LastApplied(Applied(ws, ms, k), ws[k].queue) == Some(ws[k].core.mode.name)
    ensures ws[k].queue == [] && ws[k].core.mode.name != "" ==> Applied(ws, ms, k) == Some(ws[k].core.mode.name)
  {
    hide Inv, Perform, Legal, Start, Sent;
    if k == 0 {
      StartSendsExactly(b);
      OnlyOneApplied(None, ws[0].queue, ws[0].core.mode.name);
    } else {
      ModeIsApplied(b, ws, ms, k - 1);
      RunKeepsInv(b, ws, ms, k - 1);
      var w, m := ws[k - 1], ms[k - 1];
      assert Legal(w, m) && ws[k] == Perform(w, m);
      QueueTurn(w, m);
      SentAboutMode(w, m);
      DrainsSomething(w, m);
      var rest := if m.Drain? then w.queue[1..] else w.queue;
      LastConcat(Applied(ws, ms, k), rest, Sent(w, m));
      OnlyOneApplied(LastApplied(Applied(ws, ms, k), rest), Sent(w, m), ws[k].core.mode.name);
    }
  }

  lemma DrainsSomething(w: World, m: Move)
    requires Legal(w, m)
    ensures m.Drain? ==> w.queue != []
  {
  }
}
