/** The power-supply actor: a read of the source is turned into events by
    comparing it with the previous one. Reading sysfs, averaging batteries and
    the uevent socket are not part of this model. */
module Supply {
  import opened Types

  datatype Snapshot = Snapshot(ac: bool, battery: Option<nat>)

  /** Only real changes become events, and a battery that vanished is none. */
  function Diff(previous: Snapshot, current: Snapshot): seq<Event> {
    (if previous.ac != current.ac then [AcChanged(current.ac)] else [])
    + (if current.battery.Some? && previous.battery != current.battery then [Battery(current.battery.value)] else [])
  }

  /** How a listener's view of the power moves with an event. */
  function Learn(view: Snapshot, e: Event): Snapshot {
    match e
    case AcChanged(ac) => view.(ac := ac)
    case Battery(percent) => view.(battery := Some(percent))
    case _ => view
  }

  function LearnAll(view: Snapshot, events: seq<Event>): Snapshot
    decreases |events|
  {
    if events == [] then view else LearnAll(Learn(view, events[0]), events[1..])
  }

  /** The snapshot, with a battery that is not there read as the last one seen. */
  function LastKnown(known: Snapshot, current: Snapshot): Snapshot {
    Snapshot(current.ac, if current.battery.Some? then current.battery else known.battery)
  }

  lemma {:induction false} LearnConcat(view: Snapshot, a: seq<Event>, b: seq<Event>)
    ensures LearnAll(view, a + b) == LearnAll(LearnAll(view, a), b)
    decreases |a|
  {
    if a == [] {
      assert a + b == b;
    } else {
      assert (a + b)[1..] == a[1..] + b;
      LearnConcat(Learn(view, a[0]), a[1..], b);
    }
  }

  /** A listener in step with the previous read is in step with the current one
      after the difference, even if the battery had gone missing in between. */
  lemma DiffCatchesUp(known: Snapshot, previous: Snapshot, current: Snapshot)
    requires known.ac == previous.ac && (previous.battery.Some? ==> known.battery == previous.battery)
    ensures LearnAll(known, Diff(previous, current)) == LastKnown(known, current)
  {
    var a := if previous.ac != current.ac then [AcChanged(current.ac)] else [];
    var b := if current.battery.Some? && previous.battery != current.battery then [Battery(current.battery.value)] else [];
    LearnConcat(known, a, b);
    assert LearnAll(known, a) == known.(ac := current.ac) by {
      if a != [] { assert a[1..] == []; }
    }
    if b != [] { assert b[1..] == []; }
  }

  /** No event repeats what the listener already knew. */
  lemma DiffIsMinimal(previous: Snapshot, current: Snapshot)
    ensures Diff(previous, current) == [] <==>
              previous.ac == current.ac && (current.battery == previous.battery || current.battery.None?)
    ensures |Diff(previous, current)| <= 2
    ensures forall e :: e in Diff(previous, current) ==> Learn(previous, e) != previous
  {
  }

  // -------------------------------------------------- the actor as a value

  /** `known` is the last known power, `channel` the events on their way. */
  datatype Feed = Feed(previous: Snapshot, known: Snapshot, channel: seq<Event>)

  function NewFeed(initial: Snapshot): Feed {
    Feed(initial, initial, [])
  }

  function ReadSource(f: Feed, read: Option<Snapshot>): Feed {
    match read
    case None => f
    case Some(current) =>
      Feed(current, LastKnown(f.known, current), f.channel + Diff(f.previous, current))
  }

  /** A listener at `view` will know the last known power once it has taken
      everything in the channel. */
  ghost predicate FeedOk(f: Feed, view: Snapshot) {
    && LearnAll(view, f.channel) == f.known
    && f.known.ac == f.previous.ac
    && (f.previous.battery.Some? ==> f.known.battery == f.previous.battery)
    && (forall e :: e in f.channel ==> e.AcChanged? || e.Battery?)
  }

  lemma ReadKeeps(f: Feed, view: Snapshot, read: Option<Snapshot>)
    requires FeedOk(f, view)
    ensures FeedOk(ReadSource(f, read), view)
  {
    if read.Some? {
      LearnConcat(view, f.channel, Diff(f.previous, read.value));
      DiffCatchesUp(f.known, f.previous, read.value);
    }
  }

  lemma TakeKeeps(f: Feed, view: Snapshot)
    requires FeedOk(f, view) && f.channel != []
    ensures FeedOk(f.(channel := f.channel[1..]), Learn(view, f.channel[0]))
  {
  }

  // -------------------------------------------------------------- the object

  class SupplyActor {
    var previous: Snapshot
    var latest: Snapshot
    var readable: bool
    var channel: seq<Event>
    ghost var known: Snapshot

    ghost function View(): Feed
      reads this
    {
      Feed(previous, known, channel)
    }

    ghost predicate Valid()
      reads this
    {
      latest == previous
    }

    constructor (initial: Snapshot, canRead: bool)
      ensures Valid() && View() == NewFeed(initial) && readable == canRead && FeedOk(View(), initial)
    {
      previous, latest, readable, channel, known := initial, initial, canRead, [], initial;
    }

    /** One turn of the loop, after a poll, a uevent or a recheck. */
    method Turn(read: Option<Snapshot>)
      requires Valid()
      modifies this
      ensures Valid() && View() == ReadSource(old(View()), read) && readable == read.Some?
      ensures read.Some? ==> latest == read.value
    {
      if read.None? {
        readable := false;
        return;
      }
      var snapshot := read.value;
      readable, latest := true, snapshot;
      var events := Diff(previous, snapshot);
      var i := 0;
      while i < |events|
        invariant 0 <= i <= |events|
        invariant channel == old(channel) + events[..i]
        invariant previous == old(previous) && known == old(known) && latest == snapshot && readable
      {
        channel := channel + [events[i]];
        i := i + 1;
      }
      known := LastKnown(known, snapshot);
      previous := snapshot;
    }
  }
}
