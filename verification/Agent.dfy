/** The daemon's end of the agent stream: a cache of what the agent should be
    doing, replayed to every agent that registers. The compositor side of the
    agent, and the text an op becomes on the wire, are not part of this model. */
module Agent {
  import opened Types

  type AgentId = nat

  datatype AgentOp = SendDisplay(display: Display) | SendStages(stages: Stages) | SendScreen(on: bool)

  datatype AgentEvent =
    | AgentIdle(stage: Stage)
    | AgentActivity
    | Backend(name: string, connected: bool)
    | DisplayState(available: bool)

  /** The fields behind the lock; `sent` is everything sent on the current
      stream, oldest first. */
  datatype Link = Link(
    stream: Option<AgentId>,
    nextId: AgentId,
    display: Display,
    stages: Stages,
    backend: string,
    backendConnected: bool,
    displayAvailable: bool,
    sent: seq<AgentOp>)

  function NewLink(display: Display): Link {
    Link(None, 1, display, NO_STAGES, "agent", false, false, [])
  }

  function Send(l: Link, op: AgentOp): Link {
    if l.stream.None? then l else l.(sent := l.sent + [op])
  }

  function ReplaceStages(l: Link, stages: Stages): Link {
    Send(l.(stages := stages), SendStages(stages))
  }

  function SetScreen(l: Link, on: bool): Link {
    Send(l, SendScreen(on))
  }

  function SetDisplay(l: Link, display: Display): Link {
    if l.display == display then l else Send(l.(display := display), SendDisplay(display))
  }

  function Register(l: Link): Link {
    var fresh' := l.(stream := Some(l.nextId), nextId := l.nextId + 1,
                     backendConnected := false, displayAvailable := false, sent := []);
    Send(Send(fresh', SendDisplay(l.display)), SendStages(l.stages))
  }

  function Unregister(l: Link, id: AgentId): Link {
    if l.stream == Some(id) then l.(stream := None, backendConnected := false, displayAvailable := false, sent := [])
    else l
  }

  function Note(l: Link, id: AgentId, e: AgentEvent): Link {
    if l.stream != Some(id) then l
    else match e
      case Backend(name, connected) => l.(backend := name, backendConnected := connected)
      case DisplayState(available) => l.(displayAvailable := available)
      case AgentIdle(_) | AgentActivity => l
  }

  // ------------------------------------------------ the agent's side of it

  /** What an agent that has received some ops is doing. */
  datatype Belief = Belief(display: Option<Display>, stages: Option<Stages>)

  function Believe(b: Belief, op: AgentOp): Belief {
    match op
    case SendDisplay(display) => b.(display := Some(display))
    case SendStages(stages) => b.(stages := Some(stages))
    case SendScreen(_) => b
  }

  function Beliefs(ops: seq<AgentOp>): Belief {
    if ops == [] then Belief(None, None) else Believe(Beliefs(ops[..|ops| - 1]), ops[|ops| - 1])
  }

  /** The last thing it has been told about the screen. */
  function ScreenTold(ops: seq<AgentOp>): Option<bool> {
    if ops == [] then None
    else if ops[|ops| - 1].SendScreen? then Some(ops[|ops| - 1].on)
    else ScreenTold(ops[..|ops| - 1])
  }

  /** A connected agent is doing what the cache says, and ids are never reused. */
  ghost predicate LinkOk(l: Link) {
    && (l.stream.Some? ==> Beliefs(l.sent) == Belief(Some(l.display), Some(l.stages)) && l.stream.value < l.nextId)
    && (l.stream.None? ==> l.sent == [])
  }

  lemma BelievesOne(ops: seq<AgentOp>, op: AgentOp)
    ensures Beliefs(ops + [op]) == Believe(Beliefs(ops), op)
  {
    assert (ops + [op])[..|ops|] == ops;
  }

  lemma SendBelieved(l: Link, op: AgentOp)
    ensures l.stream.Some? ==> Beliefs(Send(l, op).sent) == Believe(Beliefs(l.sent), op)
  {
    BelievesOne(l.sent, op);
  }

  lemma OpsKeepAgreement(l: Link, stages: Stages, on: bool, display: Display)
    requires LinkOk(l)
    ensures LinkOk(ReplaceStages(l, stages)) && LinkOk(SetScreen(l, on)) && LinkOk(SetDisplay(l, display))
  {
    SendBelieved(l.(stages := stages), SendStages(stages));
    SendBelieved(l, SendScreen(on));
    SendBelieved(l.(display := display), SendDisplay(display));
  }

  lemma ScreenToldOne(ops: seq<AgentOp>, op: AgentOp)
    ensures ScreenTold(ops + [op]) == if op.SendScreen? then Some(op.on) else ScreenTold(ops)
  {
    assert (ops + [op])[..|ops|] == ops;
  }

  /** A connected agent hears of the screen when it is told, at once; a new one
      has heard nothing yet. */
  lemma ScreenHeard(l: Link, stages: Stages, on: bool, display: Display)
    requires l.stream.Some?
    ensures ScreenTold(SetScreen(l, on).sent) == Some(on) && SetScreen(l, on).stream == l.stream
    ensures ScreenTold(ReplaceStages(l, stages).sent) == ScreenTold(SetDisplay(l, display).sent) == ScreenTold(l.sent)
    ensures ScreenTold(Register(l).sent) == None
  {
    ScreenToldOne(l.sent, SendScreen(on));
    ScreenToldOne(l.sent, SendStages(stages));
    ScreenToldOne(l.sent, SendDisplay(display));
    NothingHeard(l);
  }

  lemma NothingHeard(l: Link)
    ensures ScreenTold(Register(l).sent) == None
  {
    ScreenToldOne([SendDisplay(l.display)], SendStages(l.stages));
    ScreenToldOne([], SendDisplay(l.display));
    assert Register(l).sent == [SendDisplay(l.display)] + [SendStages(l.stages)];
    assert [] + [SendDisplay(l.display)] == [SendDisplay(l.display)];
  }

  /** However it got there, the cache is what a new agent is told first. */
  lemma RegisterReplays(l: Link)
    ensures LinkOk(Register(l))
    ensures Register(l).sent == [SendDisplay(l.display), SendStages(l.stages)]
    ensures Register(l).stream == Some(l.nextId)
  {
    var ops := Register(l).sent;
    assert ops == [] + [SendDisplay(l.display)] + [SendStages(l.stages)];
    BelievesOne([], SendDisplay(l.display));
    BelievesOne([] + [SendDisplay(l.display)], SendStages(l.stages));
  }

  // ------------------------------------------------------------- any history

  datatype LinkOp =
    | DoReplaceStages(stages: Stages)
    | DoSetScreen(on: bool)
    | DoSetDisplay(display: Display)
    | DoRegister
    | DoUnregister(id: AgentId)
    | DoNote(id: AgentId, event: AgentEvent)

  function Step(l: Link, op: LinkOp): Link {
    match op
    case DoReplaceStages(stages) => ReplaceStages(l, stages)
    case DoSetScreen(on) => SetScreen(l, on)
    case DoSetDisplay(display) => SetDisplay(l, display)
    case DoRegister => Register(l)
    case DoUnregister(id) => Unregister(l, id)
    case DoNote(id, e) => Note(l, id, e)
  }

  function Steps(l: Link, ops: seq<LinkOp>): Link
    decreases |ops|
  {
    if ops == [] then l else Steps(Step(l, ops[0]), ops[1..])
  }

  lemma StepKeeps(l: Link, op: LinkOp)
    requires LinkOk(l)
    ensures LinkOk(Step(l, op)) && l.nextId <= Step(l, op).nextId
  {
    match op
    case DoReplaceStages(stages) => OpsKeepAgreement(l, stages, true, l.display);
    case DoSetScreen(on) => OpsKeepAgreement(l, l.stages, on, l.display);
    case DoSetDisplay(display) => OpsKeepAgreement(l, l.stages, true, display);
    case DoRegister => RegisterReplays(l);
    case DoUnregister(id) =>
    case DoNote(id, e) =>
  }

  /** After any sequence of operations a connected agent has been told exactly
      the cached display and stages. */
  lemma {:induction false} AgentAgrees(l: Link, ops: seq<LinkOp>)
    requires LinkOk(l)
    ensures LinkOk(Steps(l, ops)) && l.nextId <= Steps(l, ops).nextId
    decreases |ops|
  {
    if ops != [] {
      StepKeeps(l, ops[0]);
      AgentAgrees(Step(l, ops[0]), ops[1..]);
    }
  }

  /** A stream that has been replaced stays out of it: it is never current
      again, and neither its loss nor anything it says changes the link. */
  lemma {:induction false} ReplacedForGood(l: Link, id: AgentId, ops: seq<LinkOp>, e: AgentEvent)
    requires LinkOk(l) && id < l.nextId && l.stream != Some(id)
    ensures var l' := Steps(l, ops);
            l'.stream != Some(id) && Unregister(l', id) == l' && Note(l', id, e) == l'
    decreases |ops|
  {
    if ops != [] {
      StepKeeps(l, ops[0]);
      ReplacedForGood(Step(l, ops[0]), id, ops[1..], e);
    }
  }

  /** Everything the agent that is connected has said, oldest first: an operation
      adds to it or begins it anew. */
  function Heard(l: Link, op: LinkOp, said: seq<AgentEvent>): seq<AgentEvent> {
    match op
    case DoRegister => []
    case DoUnregister(id) => if l.stream == Some(id) then [] else said
    case DoNote(id, e) => if l.stream == Some(id) then said + [e] else said
    case _ => said
  }

  function Said(l: Link, ops: seq<LinkOp>, said: seq<AgentEvent>): seq<AgentEvent>
    decreases |ops|
  {
    if ops == [] then said else Said(Step(l, ops[0]), ops[1..], Heard(l, ops[0], said))
  }

  function LastConnected(said: seq<AgentEvent>): bool {
    said != [] && if said[|said| - 1].Backend? then said[|said| - 1].connected else LastConnected(said[..|said| - 1])
  }

  function LastAvailable(said: seq<AgentEvent>): bool {
    said != [] && if said[|said| - 1].DisplayState? then said[|said| - 1].available else LastAvailable(said[..|said| - 1])
  }

  ghost predicate Knows(l: Link, said: seq<AgentEvent>) {
    l.backendConnected == LastConnected(said) && l.displayAvailable == LastAvailable(said)
  }

  lemma LastWord(said: seq<AgentEvent>, e: AgentEvent)
    ensures LastConnected(said + [e]) == if e.Backend? then e.connected else LastConnected(said)
    ensures LastAvailable(said + [e]) == if e.DisplayState? then e.available else LastAvailable(said)
  {
    assert (said + [e])[..|said|] == said;
  }

  lemma StepKnows(l: Link, op: LinkOp, said: seq<AgentEvent>)
    requires Knows(l, said)
    ensures Knows(Step(l, op), Heard(l, op, said))
  {
    hide LastConnected, LastAvailable;
    NoWord();
    if op.DoNote? {
      LastWord(said, op.event);
    }
  }

  lemma NoWord()
    ensures !LastConnected([]) && !LastAvailable([])
  {
  }

  /** What is known of the agent's backend and display is the last word of the one
      that is connected, and no word of one that has gone. */
  lemma {:induction false} KnowsTheLastWord(l: Link, ops: seq<LinkOp>, said: seq<AgentEvent>)
    requires Knows(l, said)
    ensures Knows(Steps(l, ops), Said(l, ops, said))
    decreases |ops|
  {
    if ops != [] {
      hide Knows;
      StepKnows(l, ops[0], said);
      KnowsTheLastWord(Step(l, ops[0]), ops[1..], Heard(l, ops[0], said));
    }
  }

  // -------------------------------------------------------------- the object

  class AgentLink {
    var stream: Option<AgentId>
    var nextId: AgentId
    var display: Display
    var stages: Stages
    var backend: string
    var backendConnected: bool
    var displayAvailable: bool
    var sent: seq<AgentOp>

    function View(): Link
      reads this
    {
      Link(stream, nextId, display, stages, backend, backendConnected, displayAvailable, sent)
    }

    constructor (d: Display)
      ensures View() == NewLink(d) && LinkOk(View())
    {
      stream, nextId, display, stages := None, 1, d, NO_STAGES;
      backend, backendConnected, displayAvailable, sent := "agent", false, false, [];
    }

    method SendOp(op: AgentOp)
      modifies this
      ensures View() == Send(old(View()), op)
    {
      if stream.Some? {
        sent := sent + [op];
      }
    }

    method ReplaceIdleStages(s: Stages)
      modifies this
      ensures View() == ReplaceStages(old(View()), s)
    {
      stages := s;
      SendOp(SendStages(s));
    }

    method TurnScreen(on: bool)
      modifies this
      ensures View() == SetScreen(old(View()), on)
    {
      SendOp(SendScreen(on));
    }

    method ReplaceDisplay(d: Display)
      modifies this
      ensures View() == SetDisplay(old(View()), d)
    {
      if display == d {
        return;
      }
      display := d;
      SendOp(SendDisplay(d));
    }

    method RegisterAgent() returns (id: AgentId)
      modifies this
      ensures View() == Register(old(View())) && id == old(nextId)
    {
      id := nextId;
      nextId := nextId + 1;
      stream, backendConnected, displayAvailable, sent := Some(id), false, false, [];
      SendOp(SendDisplay(display));
      SendOp(SendStages(stages));
    }

    /** Whether that stream was the current one, so that its loss counts. */
    method UnregisterAgent(id: AgentId) returns (current: bool)
      modifies this
      ensures View() == Unregister(old(View()), id) && current == (old(stream) == Some(id))
    {
      current := stream == Some(id);
      if current {
        stream, backendConnected, displayAvailable, sent := None, false, false, [];
      }
    }

    method NoteEvent(id: AgentId, e: AgentEvent)
      modifies this
      ensures View() == Note(old(View()), id, e)
    {
      if stream != Some(id) {
        return;
      }
      match e
      case Backend(name, connected) => backend, backendConnected := name, connected;
      case DisplayState(available) => displayAvailable := available;
      case AgentIdle(_) =>
      case AgentActivity =>
    }
  }
}
