/** The timer registry. Every start is a task that sleeps and then sends its id
    and generation; restarting or cancelling aborts the old task, but the abort
    may come too late. The generations make the registry an exact map of running
    timers in spite of that. */
module Timers {
  import opened Types

  /** One start: the timer and its generation. */
  datatype Shot = Shot(id: TimerId, generation: nat)

  datatype Registry = Registry(
    running: map<TimerId, nat>,       // the generation of the latest start
    next: nat,
    queue: seq<Shot>,                 // sent, not yet looked at
    asleep: set<Shot>)                // tasks that may still send

  const EMPTY := Registry(map[], 0, [], {})

  /** `late`: the abort of the task does not stop it from sending. */
  function Cancel(r: Registry, id: TimerId, late: bool): Registry {
    if id !in r.running then r
    else r.(running := r.running - {id},
            asleep := if late then r.asleep else r.asleep - {Shot(id, r.running[id])})
  }

  function Start(r: Registry, id: TimerId, late: bool): Registry {
    var c := Cancel(r, id, late);
    c.(running := c.running[id := r.next + 1], next := r.next + 1, asleep := c.asleep + {Shot(id, r.next + 1)})
  }

  /** A task wakes up and sends. */
  function Expire(r: Registry, s: Shot): Registry {
    if s in r.asleep then r.(asleep := r.asleep - {s}, queue := r.queue + [s]) else r
  }

  predicate Current(r: Registry, s: Shot) {
    s.id in r.running && r.running[s.id] == s.generation
  }

  /** The next shot that is still current; stale ones are dropped. `None` means
      the queue has run dry and the caller goes on waiting. */
  function Fired(r: Registry): (Option<TimerId>, Registry)
    decreases |r.queue|
  {
    if r.queue == [] then (None, r)
    else
      var s := r.queue[0];
      var r' := r.(queue := r.queue[1..]);
      if Current(r, s) then (Some(s.id), r'.(running := r.running - {s.id})) else Fired(r')
  }

  // ------------------------------------------------------------- invariant

  /** Where the shot of a start is: still asleep or in the queue, never both. */
  predicate Pending(r: Registry, s: Shot) {
    s in r.asleep || s in r.queue
  }

  ghost predicate Coherent(r: Registry) {
    && (forall s :: Pending(r, s) ==> 1 <= s.generation <= r.next)
    && (forall s, t :: Pending(r, s) && Pending(r, t) && s.generation == t.generation ==> s == t)
    && (forall i, j :: 0 <= i < j < |r.queue| ==> r.queue[i] != r.queue[j])
    && (forall s :: s in r.asleep ==> s !in r.queue)
    && (forall id :: id in r.running ==> Pending(r, Shot(id, r.running[id])))
  }

  lemma CancelKeeps(r: Registry, id: TimerId, late: bool)
    requires Coherent(r)
    ensures Coherent(Cancel(r, id, late))
    ensures Cancel(r, id, late).running.Keys == r.running.Keys - {id}
  {
    var c := Cancel(r, id, late);
    assert forall s :: Pending(c, s) ==> Pending(r, s);
    forall other | other in c.running ensures Pending(c, Shot(other, c.running[other])) {
      assert Pending(r, Shot(other, r.running[other]));
    }
  }

  /** A shot of a new generation, for an id that is not running. */
  lemma FreshShot(c: Registry, id: TimerId)
    requires Coherent(c) && id !in c.running
    ensures Coherent(c.(running := c.running[id := c.next + 1], next := c.next + 1, asleep := c.asleep + {Shot(id, c.next + 1)}))
  {
    var s := Shot(id, c.next + 1);
    var r' := c.(running := c.running[id := c.next + 1], next := c.next + 1, asleep := c.asleep + {s});
    assert forall t :: Pending(r', t) <==> Pending(c, t) || t == s;
    assert !Pending(c, s);
    forall other | other in r'.running ensures Pending(r', Shot(other, r'.running[other])) {
      if other != id {
        assert Pending(c, Shot(other, c.running[other]));
      }
    }
  }

  lemma StartKeeps(r: Registry, id: TimerId, late: bool)
    requires Coherent(r)
    ensures var r' := Start(r, id, late);
            && Coherent(r')
            && r'.running == r.running[id := r.next + 1]
            && Shot(id, r.next + 1) in r'.asleep
  {
    hide Coherent;
    CancelKeeps(r, id, late);
    var c := Cancel(r, id, late);
    FreshShot(c, id);
    assert c.running[id := r.next + 1] == r.running[id := r.next + 1];
  }

  lemma ExpireKeeps(r: Registry, s: Shot)
    requires Coherent(r)
    ensures Coherent(Expire(r, s)) && Expire(r, s).running == r.running
    ensures forall t :: Pending(Expire(r, s), t) <==> Pending(r, t)
  {
    var r' := Expire(r, s);
    assert forall t :: Pending(r', t) <==> Pending(r, t);
    forall id | id in r'.running ensures Pending(r', Shot(id, r'.running[id])) {
      assert Pending(r, Shot(id, r.running[id]));
    }
  }

  /** Looking at one shot that is stale. */
  lemma DropKeeps(r: Registry)
    requires Coherent(r) && r.queue != [] && !Current(r, r.queue[0])
    ensures Coherent(r.(queue := r.queue[1..]))
  {
    var r' := r.(queue := r.queue[1..]);
    assert forall s :: s in r.queue <==> s == r.queue[0] || s in r'.queue;
    assert forall s :: Pending(r', s) ==> Pending(r, s);
    forall id | id in r'.running ensures Pending(r', Shot(id, r'.running[id])) {
      assert Pending(r, Shot(id, r.running[id]));
    }
  }

  lemma TakeKeeps(r: Registry)
    requires Coherent(r) && r.queue != [] && Current(r, r.queue[0])
    ensures Coherent(r.(queue := r.queue[1..], running := r.running - {r.queue[0].id}))
    ensures !Pending(r.(queue := r.queue[1..]), r.queue[0])
  {
    var r' := r.(queue := r.queue[1..], running := r.running - {r.queue[0].id});
    assert forall s :: s in r.queue <==> s == r.queue[0] || s in r'.queue;
    assert forall s :: Pending(r', s) ==> Pending(r, s);
    forall id | id in r'.running ensures Pending(r', Shot(id, r'.running[id])) {
      assert Pending(r, Shot(id, r.running[id]));
    }
  }

  /** A fire is of a running timer, of its latest start, and stops it; the rest
      of the map is as it was. Nothing is returned only if no shot in the queue
      was of a latest start. */
  lemma {:induction false} FiredKeeps(r: Registry)
    requires Coherent(r)
    ensures var (out, r') := Fired(r);
            && Coherent(r')
            && (out.None? ==> r'.running == r.running && r'.queue == [] && forall s :: s in r.queue ==> !Current(r, s))
            && (out.Some? ==>
                  && out.value in r.running
                  && r'.running == r.running - {out.value}
                  && Shot(out.value, r.running[out.value]) in r.queue
                  && !Pending(r', Shot(out.value, r.running[out.value])))
    decreases |r.queue|
  {
    if r.queue != [] {
      var r' := r.(queue := r.queue[1..]);
      assert forall s :: s in r.queue <==> s == r.queue[0] || s in r'.queue;
      if Current(r, r.queue[0]) {
        TakeKeeps(r);
      } else {
        DropKeeps(r);
        FiredKeeps(r');
      }
    }
  }

  // ------------------------------------------------------------ any history

  datatype TimerOp =
    | DoStart(id: TimerId, late: bool)
    | DoCancel(id: TimerId, late: bool)
    | DoExpire(shot: Shot)
    | DoFired

  function Step(r: Registry, op: TimerOp): Registry {
    match op
    case DoStart(id, late) => Start(r, id, late)
    case DoCancel(id, late) => Cancel(r, id, late)
    case DoExpire(s) => Expire(r, s)
    case DoFired => Fired(r).1
  }

  /** What the caller of `fired` gets, if that is the operation. */
  function Output(r: Registry, op: TimerOp): Option<TimerId> {
    if op.DoFired? then Fired(r).0 else None
  }

  /** The same history on nothing but a set of running timers. */
  function AbstractStep(running: set<TimerId>, op: TimerOp, out: Option<TimerId>): set<TimerId> {
    match op
    case DoStart(id, _) => running + {id}
    case DoCancel(id, _) => running - {id}
    case DoExpire(_) => running
    case DoFired => if out.Some? then running - {out.value} else running
  }

  lemma StepRefines(r: Registry, op: TimerOp)
    requires Coherent(r)
    ensures Coherent(Step(r, op))
    ensures Step(r, op).running.Keys == AbstractStep(r.running.Keys, op, Output(r, op))
    ensures Output(r, op).Some? ==> Output(r, op).value in r.running.Keys
  {
    match op
    case DoStart(id, late) => StartKeeps(r, id, late);
    case DoCancel(id, late) => CancelKeeps(r, id, late);
    case DoExpire(s) => ExpireKeeps(r, s);
    case DoFired => FiredKeeps(r);
  }

  function After(r: Registry, ops: seq<TimerOp>): Registry
    decreases |ops|
  {
    if ops == [] then r else After(Step(r, ops[0]), ops[1..])
  }

  /** How often `fired` has returned `id`. */
  function Fires(r: Registry, ops: seq<TimerOp>, id: TimerId): nat
    decreases |ops|
  {
    if ops == [] then 0
    else (if Output(r, ops[0]) == Some(id) then 1 else 0) + Fires(Step(r, ops[0]), ops[1..], id)
  }

  function Starts(ops: seq<TimerOp>, id: TimerId): nat {
    if ops == [] then 0 else (if ops[0].DoStart? && ops[0].id == id then 1 else 0) + Starts(ops[1..], id)
  }

  /** In every history each start fires at most once, and a timer that has been
      cancelled or has fired stays silent until it is started again. */
  lemma {:induction false} AtMostOncePerStart(r: Registry, ops: seq<TimerOp>, id: TimerId)
    requires Coherent(r)
    ensures Coherent(After(r, ops))
    ensures Fires(r, ops, id) <= Starts(ops, id) + (if id in r.running then 1 else 0)
    decreases |ops|
  {
    hide Coherent, Fired;
    if ops != [] {
      StepRefines(r, ops[0]);
      AtMostOncePerStart(Step(r, ops[0]), ops[1..], id);
    }
  }

  /** Generations only grow: a restart outdates every earlier shot for good. */
  lemma {:induction false} RestartOutdates(r: Registry, ops: seq<TimerOp>, s: Shot)
    requires Coherent(r) && s.generation <= r.next && !Current(r, s)
    ensures !Current(After(r, ops), s)
    decreases |ops|
  {
    if ops != [] {
      StepRefines(r, ops[0]);
      StepOutdates(r, ops[0], s);
      RestartOutdates(Step(r, ops[0]), ops[1..], s);
    }
  }

  lemma StepOutdates(r: Registry, op: TimerOp, s: Shot)
    requires Coherent(r) && s.generation <= r.next && !Current(r, s)
    ensures !Current(Step(r, op), s) && r.next <= Step(r, op).next
  {
    match op
    case DoStart(id, late) => StartKeeps(r, id, late);
    case DoCancel(id, late) =>
    case DoExpire(t) =>
    case DoFired => FiredKeeps(r); FiredNext(r);
  }

  lemma {:induction false} FiredNext(r: Registry)
    ensures Fired(r).1.next == r.next
    decreases |r.queue|
  {
    if r.queue != [] && !Current(r, r.queue[0]) {
      FiredNext(r.(queue := r.queue[1..]));
    }
  }

  /** No running timer is lost: its shot is on the way, and once it has been
      sent, `fired` returns something rather than go on waiting. */
  lemma NotLost(r: Registry, id: TimerId)
    requires Coherent(r) && id in r.running
    ensures var s := Shot(id, r.running[id]);
            && (s in r.asleep || s in r.queue)
            && (s in r.queue ==> Fired(r).0.Some?)
            && (s in r.asleep ==> Fired(Expire(r, s)).0.Some?)
  {
    var s := Shot(id, r.running[id]);
    FiredKeeps(r);
    assert Pending(r, s);
    if s in r.asleep {
      ExpireKeeps(r, s);
      FiredKeeps(Expire(r, s));
      assert s in Expire(r, s).queue && Current(Expire(r, s), s);
    }
  }

  // -------------------------------------------------------------- the object

  class TimerRegistry {
    var running: map<TimerId, nat>
    var nextGeneration: nat
    var queue: seq<Shot>
    var asleep: set<Shot>

    function View(): Registry
      reads this
    {
      Registry(running, nextGeneration, queue, asleep)
    }

    ghost predicate Valid()
      reads this
    {
      Coherent(View())
    }

    constructor ()
      ensures Valid() && View() == EMPTY
    {
      running, nextGeneration, queue, asleep := map[], 0, [], {};
    }

    method StartTimer(id: TimerId, late: bool)
      requires Valid()
      modifies this
      ensures Valid() && View() == Start(old(View()), id, late)
      ensures running.Keys == old(running.Keys) + {id}
    {
      StartKeeps(View(), id, late);
      CancelTimer(id, late);
      nextGeneration := nextGeneration + 1;
      asleep := asleep + {Shot(id, nextGeneration)};
      running := running[id := nextGeneration];
    }

    method CancelTimer(id: TimerId, late: bool)
      requires Valid()
      modifies this
      ensures Valid() && View() == Cancel(old(View()), id, late)
      ensures running.Keys == old(running.Keys) - {id}
    {
      CancelKeeps(View(), id, late);
      if id in running {
        var generation := running[id];
        running := running - {id};
        if !late {
          asleep := asleep - {Shot(id, generation)};
        }
      }
    }

    /** The runtime: a task's sleep is over. */
    method TaskWakes(s: Shot)
      requires Valid()
      modifies this
      ensures Valid() && View() == Expire(old(View()), s) && running == old(running)
    {
      ExpireKeeps(View(), s);
      if s in asleep {
        asleep := asleep - {s};
        queue := queue + [s];
      }
    }

    /** The loop of `fired`, up to the point where it would wait for more. */
    method NextFired() returns (id: Option<TimerId>)
      requires Valid()
      modifies this
      ensures Valid() && (id, View()) == Fired(old(View()))
      ensures id.Some? ==> id.value in old(running.Keys) && running.Keys == old(running.Keys) - {id.value}
      ensures id.None? ==> running == old(running)
    {
      FiredKeeps(View());
      while queue != []
        invariant Valid() && running == old(running) && nextGeneration == old(nextGeneration) && asleep == old(asleep)
        invariant Fired(View()) == Fired(old(View()))
        decreases |queue|
      {
        var s := queue[0];
        if s.id in running && running[s.id] == s.generation {
          TakeKeeps(View());
          queue := queue[1..];
          running := running - {s.id};
          return Some(s.id);
        }
        DropKeeps(View());
        queue := queue[1..];
      }
      return None;
    }
  }
}
