/** The clock side of the server cycle: which wake this was, and the alarm that
    is written to the RTC. Times are in nanoseconds since the epoch. Only the
    `wakealarm` backend is modelled, over a cell with the kernel's rules. */
module Wake {
  import opened Types

  const MIN_HORIZON: Duration := 60 * SECOND

  datatype WakeKind = Scheduled | ByUser

  function ClassifyWake(now: Instant, scheduled: Option<Instant>, slack: Duration): WakeKind {
    match scheduled
    case None => ByUser
    case Some(at) => if Abs(now - at) <= slack then Scheduled else ByUser
  }

  datatype RtcError = TooClose | BeforeEpoch | KernelRefused | WriteFailed

  /** The seconds to write, or the error returned before any write. */
  function EpochFor(at: Instant, now: Instant): Result<nat, RtcError> {
    if at < now + MIN_HORIZON then Err(TooClose)
    else if at < 0 then Err(BeforeEpoch)
    else Ok(at / SECOND)
  }

  // ------------------------------------------------------- the alarm cell

  /** A write to the attribute: 0 clears, anything else needs an empty cell.
      `works` is whether the write itself goes through. */
  function KernelWrite(cell: Option<nat>, value: nat, works: bool): (Result<(), RtcError>, Option<nat>) {
    if !works then (Err(WriteFailed), cell)
    else if value == 0 then (Ok(()), None)
    else if cell.Some? then (Err(KernelRefused), cell)
    else (Ok(()), Some(value))
  }

  /** `Wakealarm::set`: clear, then write. `works` answers the two writes. */
  function SetAlarm(cell: Option<nat>, at: Instant, now: Instant, works: (bool, bool)): (Result<(), RtcError>, Option<nat>) {
    match EpochFor(at, now)
    case Err(e) => (Err(e), cell)
    case Ok(epoch) =>
      var (r, cell') := KernelWrite(cell, 0, works.0);
      if r.Err? then (r, cell') else KernelWrite(cell', epoch, works.1)
  }

  /** An armed alarm is always replaced: the kernel's rule never bites, and on
      success the cell holds the requested second. A failure leaves the old
      alarm or none, never another one. */
  lemma SetReplaces(cell: Option<nat>, at: Instant, now: Instant, works: (bool, bool))
    requires now >= 0
    ensures var (r, cell') := SetAlarm(cell, at, now, works);
            && (r.Ok? <==> at >= now + MIN_HORIZON && works == (true, true))
            && (r.Ok? ==> cell' == Some(at / SECOND))
            && (r.Err? ==> r.error != KernelRefused && r.error != BeforeEpoch && (cell' == cell || cell' == None))
  {
    if at >= now + MIN_HORIZON {
      assert at / SECOND >= 60;
    }
  }

  // ------------------------------------------------------------ arithmetic

  lemma Truncation(at: Instant)
    ensures at / SECOND * SECOND <= at < at / SECOND * SECOND + SECOND
  {
  }

  /** An alarm requested at `t0` is accepted exactly while the clock has moved
      on by no more than the interval less a minute; a validated interval leaves
      at least a minute for that. */
  lemma AcceptedIff(config: Config, t0: Instant, now: Instant)
    requires Validate(config).Ok?
    ensures EpochFor(t0 + config.server.checkInterval, now).Ok?
       <==> now - t0 <= config.server.checkInterval - MIN_HORIZON && t0 + config.server.checkInterval >= 0
    ensures config.server.checkInterval - MIN_HORIZON >= 60 * SECOND
  {
  }

  /** Right after falling asleep a wake is the user's: in a validated config the
      range is not empty, and everything in it is classified so. */
  lemma EarlyWakeIsUser(config: Config, t0: Instant, now: Instant)
    requires Validate(config).Ok?
    ensures var s := config.server;
            && t0 < t0 + s.checkInterval - s.alarmSlack
            && (now < t0 + s.checkInterval ==>
                  (ClassifyWake(now, Some(t0 + s.checkInterval), s.alarmSlack) == ByUser
                   <==> now < t0 + s.checkInterval - s.alarmSlack))
  {
  }

  /** Every wake from the second the RTC was given until the slack runs out. */
  ghost predicate AlarmRecognized(at: Instant, slack: Duration) {
    forall now :: at / SECOND * SECOND <= now <= at + slack ==> ClassifyWake(now, Some(at), slack) == Scheduled
  }

  /** The RTC fires at the whole second at or below the requested instant. Its
      wake is recognized exactly if the slack covers what was cut off. */
  lemma RecognizedIff(at: Instant, slack: Duration)
    ensures AlarmRecognized(at, slack) <==> at % SECOND <= slack
  {
    Truncation(at);
    assert at - at / SECOND * SECOND == at % SECOND;
    if AlarmRecognized(at, slack) {
      assert ClassifyWake(at / SECOND * SECOND, Some(at), slack) == Scheduled;
    }
  }

  /** So whatever the clock says when the alarm is requested, a slack is safe
      exactly from one second (less a tick) upwards. */
  lemma SafeSlack(slack: Duration)
    ensures (forall at: Instant :: AlarmRecognized(at, slack)) <==> slack >= SECOND - 1
  {
    if slack >= SECOND - 1 {
      forall at: Instant ensures AlarmRecognized(at, slack) {
        RecognizedIff(at, slack);
      }
    } else {
      RecognizedIff(SECOND - 1, slack);
      assert !AlarmRecognized(SECOND - 1, slack);
    }
  }

  // --------------------------------------------------------------- objects

  class Planner {
    var scheduled: Option<Instant>

    constructor ()
      ensures scheduled == None
    {
      scheduled := None;
    }

    method Armed(at: Instant)
      modifies this
      ensures scheduled == Some(at)
    {
      scheduled := Some(at);
    }

    method Disarmed()
      modifies this
      ensures scheduled == None
    {
      scheduled := None;
    }

    /** Classifies the wake that just happened and forgets the alarm. */
    method Classify(now: Instant, slack: Duration) returns (kind: WakeKind)
      modifies this
      ensures kind == ClassifyWake(now, old(scheduled), slack) && scheduled == None
    {
      var was := scheduled;
      scheduled := None;
      kind := ClassifyWake(now, was, slack);
    }
  }

  /** The attribute file: its contents, and how the next writes fare. */
  class Wakealarm {
    var cell: Option<nat>

    constructor ()
      ensures cell == None
    {
      cell := None;
    }

    method Write(value: nat, works: bool) returns (r: Result<(), RtcError>)
      modifies this
      ensures (r, cell) == KernelWrite(old(cell), value, works)
    {
      if !works {
        return Err(WriteFailed);
      }
      if value == 0 {
        cell := None;
      } else if cell.Some? {
        return Err(KernelRefused);
      } else {
        cell := Some(value);
      }
      return Ok(());
    }

    method Set(at: Instant, now: Instant, works: (bool, bool)) returns (r: Result<(), RtcError>)
      modifies this
      ensures (r, cell) == SetAlarm(old(cell), at, now, works)
    {
      var epoch := EpochFor(at, now);
      if epoch.Err? {
        return Err(epoch.error);
      }
      r := Write(0, works.0);
      if r.Err? {
        return r;
      }
      r := Write(epoch.value, works.1);
    }

    method Clear(works: bool) returns (r: Result<(), RtcError>)
      modifies this
      ensures (r, cell) == KernelWrite(old(cell), 0, works)
    {
      r := Write(0, works);
    }
  }
}
