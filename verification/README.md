# ampered, verified

ampered is a power management daemon for Linux laptops: idle stages, dimming,
display power, suspend, power modes, and the "long sleep" server cycle, in
which a laptop without mains power sleeps, is woken by an RTC alarm, looks for
power and sleeps again. This project models the part of it where mistakes are
expensive and proves what it promises over every run.

## How it is built

- `Types` is the vocabulary. `Transition` is the state machine as a function
  from fields and event to fields and commands; `Engine` is the same machine as
  the object it is in the program, each method proved to do what its function
  says.
- `Effects` says what a queue of commands is *going to do*. `After(fx, queue)`
  does not change when the head of the queue is executed, so one invariant
  serves the drained daemon and every moment in the middle of a drain,
  including the three commands whose execution re-enters the engine.
- `Invariants` proves, handler by handler, that every event keeps it;
  `Discipline` says when each kind of command may be sent at all, counts failed
  attempts, and weighs the queue.
- `World` is the whole daemon in an environment that may do anything: logind,
  supply, timers, agents, clients, the RTC and the clock are arbitrary inputs
  and answers. `Safety` is the inductive invariant of its runs, `Runs` the
  theorems. `Daemon` is the object that drains the queue, proved against
  `World` step by step.
- `Choices` says what exactly an event does to what clients choose, the manual
  mode and the inhibitor table; `Outcomes` the same for the state, requests to
  sleep, the cycle's timers, the idle stages and the panel. `Sends` reads the
  machine the other way round: for every command, the conditions under which it
  is due, written out over fields and configuration; `Fields` does the same for
  every field. Both directions hold for every event (`Runs.EngineExactly`).
- `Turns` reduces a move of the daemon to that. `Turns.Since(begin, end, ...)`
  reads: some move was `begin`, and none after it was `end`. A theorem of
  `Histories` says of one kind of move what begins a condition and what ends it,
  and the run-level theorem follows: the condition holds exactly since such a
  beginning.
- `Modes` follows configuration, mode and idle stages along a run, `Waking` the
  cycle from the alarm to what the wake leads to.
- `Timers`, `Agent`, `Supply` and `Wake` are the stateful parts around it, each
  as a value with theorems about every history and as a class proved against
  it.
- `Backlight` is the fade arithmetic and the controller beside its fade task;
  `Controller` is the same as objects that share the panel; `Brightness` puts
  it into the runs of the daemon, with `Lights` saying when the panel is dark in
  `Active`. `Hysteresis` bounds mode switching. `Limits` collects the places
  where the code does less than its comments or documents say: for each a way
  there, and over all runs exactly when.

Durations and instants are whole nanoseconds. Names, hooks and reasons are
opaque strings; errors that the program formats as text are enumerations.

## Where the code and its documents disagree

The model follows the code.

- `docs/02-state-machine.md:108-110` wants `Undim` whenever `Dimmed` or
  `ScreenOff` is left, and the row at line 95 of the same file sends nothing but
  the timer cancellation when AC ends Grace. The code does the latter, so a
  Grace entered with a dark panel ends in `Active` with a dark panel
  (`Limits.GraceLeavesDimmed`; exactly when: `Lights.DarkInActiveExactly`).
- `docs/02-state-machine.md:98` cancels every timer of the phase on
  `LongSleep{cancel}`. The other ways out of the cycle cancel only the timer
  they know of, or none (`Limits.WindowOutlivesTheCycle`; exactly when:
  `Limits.TimersOutliveTheCycle`). What is left over is ignored outside the
  phases that wait for it (`Limits.LeftoverFires`).
- `docs/10-long-sleep-rtc.md:33-34` has the idle stages off in the cycle; the
  code turns them off when Grace ends by its timer. A suspend or a resume ends
  Grace without (`Limits.StagesStayOn`; exactly when: `Limits.StagesOnExactly`).
- `docs/02-state-machine.md:111-117` never sleeps in the cycle without an armed
  alarm. That is so of the suspend that is sent (`Runs.NeverSleepsUnarmed`). The
  machine goes down when logind answers. If the user is active in between and
  the window then ends, the next attempt clears the alarm and may fail to write
  another (`Limits.WindowWhileAsked`, then `Limits.DownWithoutAlarm`; exactly
  when: `Limits.AsleepWithAlarmExactly`).
- The same lines allow a suspend from a state that is awake, or by a client. A
  retry asks again in whatever state a refused request has gone back to, also
  asleep (`Limits.RetryWhileAsleep`; exactly when: `Outcomes.SleepsExactly`).
- The comment at `src/backlight.rs:217-218` wants `pre_dim` to be the user's
  brightness and not a step of a ramp. A dim that cuts the ramp of a restore
  short records a step (exactly when: `Backlight.KeptExactly`).
- ADR-9 (`docs/17-decisions.md:50-54`) leaves a brightness alone that somebody
  else has set while the panel was dimmed. While the dim is still fading, the
  next frame writes over it, and the restore then takes it for the daemon's own
  (`Backlight.KeyPressLostInFade`; exactly when: `Backlight.ForeignChangeExactly`).
- ADR-15 (`docs/17-decisions.md:105-112`) drops a manual mode that a reloaded
  config no longer has. That happens at startup only
  (`Limits.ManualModeOutlivesItsEntry`; exactly when: `Limits.DanglingExactly`).
- A reload that disables `[server]` drops the RTC handle, so the alarm it has
  armed is not cleared by a `CancelWake` that follows
  (`Limits.ReloadLeavesTheAlarm`; exactly when: `Limits.MissedExactly`, and for
  how long: `Limits.AlarmLeftExactly`).
- `src/logind.rs:156-157` is there so that the state machine does not wait in
  `Suspending` forever. Asked to sleep twice and refused twice with retries
  off, or with retries turned off while one is pending, it does
  (`Limits.TwoRefusalsStrand`, `Limits.RetriesTurnedOffStrand`; exactly when:
  `Runs.StuckExactly`).
- The step count of a fade is cut to 32 bits (`src/backlight.rs:312`), so a
  transition of 2^32 steps of 16 ms has none and its fade never starts
  (`Backlight.LongestFadeHasNoSteps`, `Backlight.NoStepsNoDim`; exactly when:
  `Backlight.StepsZeroExactly`, and what it costs: `Backlight.DimArrivesExactly`).

## Model

| member | source | states |
|---|---|---|
| Runs.RunKeepsInv | src/main.rs:217-266 | the invariant of `Safety` holds at every moment of every run, drained or not |
| Runs.EngineExactly | src/core.rs:370-459 | every event of every run moves the state as the table says and the other fields as `FieldsAre` says, and what comes to the end of the queue is exactly the commands that are due |
| Runs.NotYetInterrupted | src/core.rs:609-629 | inside the cycle the flag that says the user has ended it is never set |
| Runs.NoDeadState | src/core.rs:631-766 | whenever the queue is drained, Grace, Checking, Armed and a pending retry each have a running timer or an unanswered request to wait for, and so has Suspending, except since a move that strands it |
| Runs.StuckExactly | src/core.rs:571-582 | Suspending has nothing to wait for exactly since, with retries off, the last open request was refused and led back to Suspending, or a pending retry came due and was blocked; until the user, a wake, a suspend from outside, a shutdown or a new request |
| Runs.NeverSleepsUnarmed | src/core.rs:688-709 | a suspend executed inside the cycle has an alarm armed in the same drain and still in the hardware unless it has gone off, AC off and no blocker; a forced one has a critical battery and is really a hibernate |
| Runs.AlarmStands | src/main.rs:329-355 | between the write of the alarm and the suspend that relies on it, the device holds exactly the second remembered, unless it has gone off |
| Runs.PowerOffOnlyWhenCritical | src/core.rs:734-772 | a power-off is executed only in Checking, without AC, with a battery at or below `battery_critical_percent`, and where hibernating is not asked for or cannot be had |
| Runs.InhibitorsRespected | src/core.rs:514-531 | with `respect_inhibitors` no unforced suspend is executed unless the last list from logind was empty, nor since a sleep inhibitor was granted and neither taken back nor run out |
| Runs.ListExactly | src/core.rs:436-440 | the list the engine goes by is the last one logind has told, of its own accord or with a refusal |
| Runs.GrantedExactly | src/core.rs:1065-1103 | a sleep inhibitor is in the table exactly since its grant, until a client takes it back or it runs out |
| Runs.ExpiriesAreTheTable | src/core.rs:1065-1103 | drained, the running expiry timers are exactly the ids in the inhibitor table, whose ids increase and are all below the next one |
| Runs.AlarmDiesWithTheCycle | src/core.rs:787-800 | drained, an alarm is remembered only past Grace, and the hardware holds one only there unless a clear has ever missed one |
| Runs.NeverMissed | src/main.rs:356-363 | no clear misses while the handle stays and clearing works |
| Runs.StrandedByAMove | src/core.rs:824-828 | the panel has been stranded exactly if AC has ended a Grace with a dark panel |
| Runs.PanelRestored | src/core.rs:461-508 | without that, Active means the last Dim/Undim and Screen left the panel lit, also after a refused suspend |
| Runs.StrandingLeavesDark | src/core.rs:824-828 | and with it Active is reached with a dark panel, every time |
| Runs.StagesEndToEnd | src/core.rs:115-123 | outside the phases past Grace the last stages sent are the timeouts of the mode in effect, each stage from its own, those of zero disabled, and a connected agent has been told exactly these and the display section |
| Runs.OneReplyEach | src/main.rs:466-515 | drained, every request received has been answered exactly once and no other id has |
| Runs.NeverTwice | src/core.rs:933-1003 | at any moment no request has more than one answer sent or queued |
| Runs.BroadcastsChain | src/core.rs:370-393 | each state broadcast starts where the last one ended, and drained the last one names the engine's state |
| Runs.PowerAgrees | src/power/supply.rs:246-307 | with the supply channel empty the engine's power is the last known one; an automatic mode is the choice for (AC, low), or stays what it was with auto-switching off; and low is set at the threshold and cleared five above it |
| Runs.CounterExact | src/core.rs:713-730 | in the cycle the failure counter is the count kept from outside and below three |
| Runs.ExecuteShrinks | src/main.rs:217-231 | executing a command, with whatever it queues, leaves a strictly lighter queue |
| Runs.DrainTerminates | src/main.rs:217-231 | a drain takes at most as many turns as its queue weighs, whatever the answers |
| Safety.StartKeeps | src/main.rs:189-210 | the invariant holds at startup, in the middle of a cycle or not |
| Safety.ExecuteKeeps | src/main.rs:304-400 | executing any head of the queue keeps it, for every answer of the outside |
| Safety.ReceiveKeeps | src/main.rs:233-265 | every input keeps it |
| Safety.HeadPivot | src/main.rs:317-331 | a command that re-enters the engine or ends the machine finds the engine as it was when it was sent |
| Safety.AlarmMoves | src/main.rs:329-355 | a recorded alarm changes nothing else the invariant looks at |
| Safety.ScheduleKeeps | src/main.rs:329-355 | scheduling the wake and answering the engine in mid-drain keeps the invariant |
| Safety.SleepKeeps | src/main.rs:310-328 | so does a suspend, delivered or not |
| Safety.ReloadInv | src/main.rs:466-515 | so does a reload, accepted or rejected |
| Invariants.HandleKeeps | src/core.rs:370-393 | every event leaves engine and queue sound, owes exactly the replies asked for, and keeps the panel's promise except for the stranding step, which breaks it |
| Invariants.SetConfigKeeps | src/core.rs:338-345 | a new config keeps all of it |
| Invariants.LeaveCycleKeeps | src/core.rs:787-800 | leaving the cycle from any phase cancels the alarm, restores the stages and lights the panel |
| Invariants.CycleFailureKeeps | src/core.rs:713-730 | a failed attempt leaves Armed waiting for its window, or ends the cycle |
| Invariants.RemoveInhibitFacts | src/core.rs:1089-1103 | removing an inhibitor removes exactly the entries with that id and keeps the ids increasing |
| Discipline.EveryCommandLicensed | src/core.rs:414-459 | for every kind of command, the states, events and fields under which it may be sent; Dim only from Active, stages past Grace only NONE, the critical action never on a wake by the user |
| Discipline.CriticalActionRetries | src/core.rs:734-766 | a critical action is accompanied by a fresh awake window, and taken only on an alarm wake or at the end of a window |
| Outcomes.CriticalActionExactly | src/core.rs:734-772 | in the cycle the critical action is taken exactly on an alarm wake or at the end of a window spent in Checking, without AC and with a battery at or below `battery_critical_percent` |
| Discipline.Conditions | src/core.rs:551-569 | what blocks a suspend, what inhibits idleness and what is critical, as conditions on the configuration, the lists and the battery |
| Outcomes.FollowsTheTable | docs/02-state-machine.md:78-101 | the state after every event is the one of the transition table |
| Outcomes.SleepsExactly | src/core.rs:514-531 | outside the cycle a suspend is asked for exactly by idleness in an awake state, a client, or a pending retry, when nothing blocks or a client forces it |
| Outcomes.SuspendingExactly | src/core.rs:571-591 | what ends Suspending, and that it is entered only together with a request |
| Outcomes.PastGraceExactly | src/core.rs:593-660 | past Grace is reached from Grace only, by its timer, a suspend, or a resume without AC |
| Outcomes.OffPastGrace | src/core.rs:350-368 | past Grace nothing but "off" is sent to the agent about stages |
| Outcomes.GraceEndsSilently | src/core.rs:593-629 | of the three ways out of Grace only the timer sends stages |
| Outcomes.TakesBackExactly | src/core.rs:802-812 | the window and the Grace timer are cancelled by exactly these events |
| Outcomes.PursuesQuietly | src/core.rs:678-709 | an event after which a drain may still leave the cycle touches neither timer |
| Choices.ChoiceKept | src/core.rs:903-913 | only a client changes whether the mode is manual, and which |
| Choices.TableExactly | src/core.rs:1065-1103 | the inhibitor table changes by a grant, a removal and an expiry only, and an id is used up by a grant only |
| Outcomes.StayingSendsExactly | src/core.rs:338-368 | past Grace and staying there, something is sent about stages exactly if a client chooses a mode or power asks for another one |
| Outcomes.LightsExactly | src/core.rs:483-508 | the panel is told to undim, and to turn on, by exactly these events, whatever handler they go through |
| Fields.SentExactly | src/core.rs:414-459 | a command is sent by an event if and only if it is due: sixteen kinds of command, each by its own condition, with percentages, durations, reasons and replies |
| Fields.FieldsExactly | src/core.rs:414-459 | the state, the mode, logind's list, the pending retry, the way back from a refusal, the failure counter and the interruption after every event |
| Fields.RefusalIsAll | src/core.rs:933-1003 | a request that is refused changes nothing and sends nothing but the refusal |
| Sends.ReapplyingSends | src/core.rs:903-920 | power changes the mode exactly if another one is wanted, and then it is applied, its stages sent and the change announced |
| Sends.LeavingSends | src/core.rs:787-800 | everything the common way out of the cycle sends, and nothing else |
| Turns.FedTurn | src/main.rs:217-266 | what a move that feeds the engine an event does, to the engine and to what is going to be done |
| Turns.PlainTurn | src/main.rs:304-400 | any other move leaves the engine and what is going to be done as they were |
| Turns.SinceExactly | src/main.rs:217-266 | a condition that every move begins and ends by two marks holds exactly since a begin without an end |
| Histories.StuckTurn | src/core.rs:571-582 | which move strands a suspend, and which frees it |
| Histories.StagesTurn | src/core.rs:593-629 | which move leaves idle stages on past Grace, and which resets them: a reload, a mode chosen, power asking for another mode, the way out |
| Histories.EventOnItsWay | src/core.rs:787-812 | what the event of a drain leaves of the cycle's timers |
| Histories.DrainOnItsWay | src/core.rs:688-730 | the rest of the drain leaves that alone as long as it is on its way out |
| Histories.CellTurn | src/main.rs:329-363 | which move arms a device, and which empties it |
| Histories.OrphanTurn | src/main.rs:495-498 | which move takes the handle away from an armed device, and which ends that |
| Histories.MissedTurn | src/main.rs:356-363 | which CancelWake leaves an alarm behind |
| Histories.LiveTurn | src/main.rs:329-363 | an alarm that has been written counts until the next CancelWake |
| Histories.InhibitTurn | src/core.rs:1065-1103 | which move puts a sleep inhibitor into the table, and which takes it out |
| Histories.AlarmTurn | src/main.rs:329-355 | nothing comes between the write of an alarm and its suspend but the alarm |
| Histories.ModeTurn | src/core.rs:338-345 | which move leaves a manual mode without an entry, and which settles it |
| Lights.LightsTurn | src/core.rs:461-508 | which move leaves the panel dimmed or off behind the state's back, and which ends that |
| Lights.DarkInActiveExactly | src/core.rs:824-828 | in Active the panel is dimmed exactly since AC ended a Grace with a dimmed panel, until an event that undims, and off exactly since the same with the screen |
| Lights.DarkWhereItSays | src/core.rs:461-481 | in every run the panel is dimmed in Dimmed and off in ScreenOff, also while a suspend from there may still be refused |
| Lights.ScreenToTheAgent | src/agent.rs:119-121 | a connected agent has been told exactly the last Screen executed since it connected |
| Discipline.BackToChecking | src/core.rs:734-766 | Checking is entered, also again, only with a fresh window |
| Discipline.FailuresExact | src/core.rs:713-730 | the counter is the number of attempts failed in a row, below three in the cycle; the third ends it and no earlier one does |
| Discipline.ReentryShrinks | src/main.rs:317-355 | what the engine sends back in mid-drain weighs less than the command it answers |
| Discipline.HandleSame | src/core.rs:370-393 | which events can change config, power and the hibernate verdict, and that ids are never handed out twice |
| Effects.AlarmAfter | src/main.rs:356-363 | an alarm survives a queue exactly if no CancelWake is in it |
| Effects.AnsweredAfter | src/main.rs:217-231 | a reply sent at once counts the same as one still queued |
| Effects.PivotsInFront | src/main.rs:217-231 | commands waiting ahead change nothing in what the rest will do |
| Effects.LeaveCycleEffect | src/core.rs:787-800 | the whole effect of leaving the cycle |
| Effects.CheckPowerEffect | src/core.rs:734-766 | the whole effect of looking for power |
| EngineObject.Engine.constructor | src/core.rs:277-298 | a new engine, with its low flag and automatic mode computed |
| EngineObject.Engine.Start | src/core.rs:300-304 | the commands of startup |
| EngineObject.Engine.RestoreManualMode | src/core.rs:306-317 | a saved mode is taken only if the config has it |
| EngineObject.Engine.SetConfig | src/core.rs:338-345 | new fields and commands of a reload |
| EngineObject.Engine.ModeCommands | src/core.rs:350-368 | the current mode put into effect, with no stages past Grace |
| EngineObject.Engine.Handle | src/core.rs:370-393 | new fields, commands and the broadcasts that follow a change of state |
| EngineObject.Engine.ResumeCycle | src/core.rs:397-404 | the cycle picked up at Checking |
| EngineObject.Engine.Dispatch | src/core.rs:414-459 | new fields and commands, event by event |
| EngineObject.Engine.OnIdle | src/core.rs:461-481 | the idle stages, against inhibitors and states |
| EngineObject.Engine.OnActivity | src/core.rs:483-512 | activity in every state |
| EngineObject.Engine.RequestSleep | src/core.rs:514-531 | a sleep attempt, blocked or not, forced or not |
| EngineObject.Engine.ArmSleepRetry | src/core.rs:533-540 | the retry, unless it is off |
| EngineObject.Engine.CancelPendingSleep | src/core.rs:542-549 | a pending retry dropped |
| EngineObject.Engine.OnSleepBlocked | src/core.rs:571-582 | a refusal, in and outside the cycle |
| EngineObject.Engine.OnSleepFailed | src/core.rs:584-591 | a failure, in and outside the cycle |
| EngineObject.Engine.OnGoingDown | src/core.rs:593-607 | the machine goes down, asked or not |
| EngineObject.Engine.OnResumed | src/core.rs:609-629 | a wake by the alarm or by the user |
| EngineObject.Engine.OnTimer | src/core.rs:631-660 | a timer, current or left over |
| EngineObject.Engine.EnterGrace | src/core.rs:665-676 | a cycle begins |
| EngineObject.Engine.Arm | src/core.rs:678-686 | the alarm is asked for |
| EngineObject.Engine.OnWakeScheduled | src/core.rs:688-709 | it is armed, or not |
| EngineObject.Engine.CycleFailure | src/core.rs:713-730 | a failed attempt |
| EngineObject.Engine.CheckPower | src/core.rs:734-766 | looking for power |
| EngineObject.Engine.PowerIsBack | src/core.rs:776-785 | power found |
| EngineObject.Engine.LeaveCycle | src/core.rs:787-800 | the common way out |
| EngineObject.Engine.CancelCycle | src/core.rs:802-812 | the way out a client asks for |
| EngineObject.Engine.OnAcChanged | src/core.rs:816-846 | AC comes or goes |
| EngineObject.Engine.PowerMoved | src/core.rs:833-843 | the rest of that where AC ends no phase: the mode follows, and a cycle may begin |
| EngineObject.Engine.OnBattery | src/core.rs:848-858 | a battery reading |
| EngineObject.Engine.SelectAutoMode | src/core.rs:903-913 | the automatic mode, and whether it changed |
| EngineObject.Engine.OnIpc | src/core.rs:933-1003 | every client request |
| EngineObject.Engine.OnLongSleep | src/core.rs:1010-1044 | the cycle started or cancelled by a client, and the refusals |
| EngineObject.Engine.OnSetMode | src/core.rs:1046-1063 | a mode chosen by a client |
| EngineObject.Engine.OnInhibit | src/core.rs:1065-1087 | an inhibitor granted under a fresh id, its lifetime capped |
| EngineObject.Engine.OnUninhibit | src/core.rs:1089-1103 | an inhibitor removed |
| DaemonObject.Daemon.constructor | src/main.rs:189-210 | a started daemon is the start of a run |
| DaemonObject.Daemon.Drain | src/main.rs:217-231 | the drain loop ends for every answer, leaves the queue empty or the daemon down, keeps the invariant, and does to everything what the runs say |
| DaemonObject.Daemon.Execute | src/main.rs:304-400 | one command, executed on the objects it drives |
| DaemonObject.Daemon.ScheduleWakeIn | src/main.rs:329-355 | the alarm set, the planner told, the engine answered in mid-drain |
| DaemonObject.Daemon.ReloadConfig | src/main.rs:466-515 | a reload, rejected as a whole or taken as a whole |
| DaemonObject.Daemon.Deliver | src/main.rs:259-265 | an event handed to the engine |
| DaemonObject.Daemon.OnWake | src/main.rs:245-258 | a resume in the cycle is classified before the engine sees it |
| DaemonObject.Daemon.OnTimerQueue | src/main.rs:233-236 | what the timer queue yields is an input the runs allow, and stale fires change nothing |
| Modes.ValidModesAreOrdered | src/config.rs:456-488 | a mode validates exactly if its enabled stages come in the order dim, screen off, sleep, within a day |
| Modes.ValidConfigsExactly | src/config.rs:379-452 | a config validates exactly if every mode does, every mode auto-switching can want exists, percentages are at most 100, and the alarm is two minutes ahead and outside its slack |
| Modes.ReloadExactly | src/core.rs:338-368 | a reload puts the config into effect: low battery looked at again, an automatic mode chosen again, the mode applied and its stages sent |
| Modes.ConfigExactly | src/main.rs:466-515 | the config in effect is always the last one accepted, and valid |
| Modes.StagesInOrder | src/core.rs:115-123 | so the stages the agent has been told come in order |
| Modes.HandleExactly | src/main.rs:495-498 | there is an RTC handle exactly if the server is enabled and the RTC was there when last looked for, and it is for the configured device |
| Modes.StartExactly | src/main.rs:189-210 | the daemon starts in the cycle exactly if it was in it and there is no power, and in the saved mode exactly if the config still has it |
| Modes.StartSendsExactly | src/core.rs:300-304 | at startup the mode is applied, and a cycle taken up has its window |
| Modes.ModeIsApplied | src/core.rs:350-357 | counting the queue, the last mode applied is always the one in effect; drained, it has been applied |
| Waking.AlarmExactly | src/main.rs:329-355 | the alarm is one check interval after it is asked for, and is remembered, and held by the device, exactly if there is one, a minute is left and the writes work |
| Waking.AskedForExactly | src/logind.rs:183-190 | logind is asked for what the config says, or hibernation at the critical level, and for a plain suspend instead exactly where it cannot hibernate |
| Waking.WakeExactly | src/main.rs:245-258 | a wake in the cycle without power goes on exactly if it is within the slack of the alarm; otherwise the cycle is over, interrupted by the user, and no critical action is sent |
| Waking.CriticalInTime | src/core.rs:734-772 | a power-off or hibernate of the cycle is executed only as configured, below the critical level, and only since power was looked for at the end of a window or on a wake in time |
| Timers.StepRefines | src/timers.rs:48-98 | every operation does to the running timers what it does to an abstract set, and `fired` returns only a running one |
| Timers.AtMostOncePerStart | src/timers.rs:82-98 | over any history an id is returned at most once per start, and not while cancelled |
| Timers.RestartOutdates | src/timers.rs:48-66 | a shot that is not current never becomes current again |
| Timers.NotLost | src/timers.rs:82-98 | a running timer's shot is on its way, and once sent `fired` returns |
| Timers.FiredKeeps | src/timers.rs:82-98 | dropping stale shots and taking a current one keeps the registry coherent |
| Timers.TimerRegistry.StartTimer | src/timers.rs:48-66 | start replaces, however late the abort is |
| Timers.TimerRegistry.CancelTimer | src/timers.rs:68-73 | cancel removes, however late the abort is |
| Timers.TimerRegistry.NextFired | src/timers.rs:82-98 | the loop that drops stale shots |
| Agent.AgentAgrees | src/agent.rs:113-204 | after any operations a connected agent has been told exactly the cached display and stages |
| Agent.RegisterReplays | src/agent.rs:151-166 | a new agent is told the cache first, whatever happened before |
| Agent.ReplacedForGood | src/agent.rs:169-204 | a replaced stream is never current again, and neither its loss nor its events change anything |
| Agent.KnowsTheLastWord | src/agent.rs:169-203 | after any operations, what is known of an agent's backend and display is the last word of the one that is connected |
| Agent.AgentLink.RegisterAgent | src/agent.rs:151-166 | registration on the object |
| Agent.AgentLink.UnregisterAgent | src/agent.rs:169-183 | only the current stream can leave |
| Agent.AgentLink.NoteEvent | src/agent.rs:186-203 | only the current stream is heard |
| Supply.DiffCatchesUp | src/power/supply.rs:296-307 | a listener in step with the previous read is in step with the next one, a missing battery read as the last known |
| Supply.DiffIsMinimal | src/power/supply.rs:296-307 | no event repeats what was known, and there are none exactly if nothing changed |
| Supply.ReadKeeps | src/power/supply.rs:246-268 | a turn of the actor keeps its promise about what is in the channel |
| Supply.SupplyActor.Turn | src/power/supply.rs:246-293 | a turn of the actor's loop, on a failed and on a good read |
| Wake.SetReplaces | src/sleep/rtc.rs:131-143 | setting an alarm succeeds exactly if it is a minute away and both writes work, always replaces, and never leaves a third value |
| Wake.AcceptedIff | src/sleep/rtc.rs:45-56 | an alarm requested at t0 is accepted exactly while the clock has moved by at most the interval less a minute |
| Wake.EarlyWakeIsUser | src/config.rs:445-449 | in a validated config the range before the slack is not empty and every wake in it is the user's |
| Wake.RecognizedIff | src/sleep/planner.rs:38-51 | every wake from the truncated second to the end of the slack is the alarm's exactly if the slack covers what truncation cut off |
| Wake.SafeSlack | src/sleep/planner.rs:38-51 | a slack is safe for every alarm exactly from one second less a tick |
| Wake.Planner.Classify | src/sleep/planner.rs:74-79 | classification forgets the alarm |
| Wake.Wakealarm.Set | src/sleep/rtc.rs:132-139 | clear, then write, against the kernel's rule |
| Wake.Wakealarm.Clear | src/sleep/rtc.rs:141-143 | the alarm cleared |
| Backlight.RampIsMonotone | src/backlight.rs:377-381 | a ramp stays between its ends, never turns back, and shows its target exactly when it is over |
| Backlight.RampIsStraight | src/backlight.rs:377-381 | in between it is a straight line, less than a level behind and never ahead |
| Backlight.RampFitsExactly | src/backlight.rs:377-381 | its product fits 64 bits for all panels exactly up to 2^31 steps |
| Backlight.PercentRoundTrip | src/backlight.rs:366-375 | percent to raw and back is the identity exactly if rounding lost no more than half the range |
| Backlight.PercentRoundTripFrom198 | src/backlight.rs:366-375 | so for every percentage on every panel of 198 levels or more |
| Backlight.PercentLostAt197 | src/backlight.rs:366-375 | and not with 197 |
| Backlight.TargetIsThePercentage | src/backlight.rs:295-301 | a dim aims at the larger of the percentage asked for and the floor, which from 198 levels reads back as exactly that |
| Backlight.DimStaysAboveFloor | src/backlight.rs:295-301 | every step of a dim is between the floor, or what was already below it, and the current brightness |
| Backlight.KeptExactly | src/backlight.rs:207-272 | with no failure, foreign write or new device, an act loses the user's brightness exactly if it is a dim that cuts a restore short or a restore without steps |
| Backlight.StopShows | src/backlight.rs:344-349 | where a cancelled ramp leaves the panel, with or without one more step |
| Backlight.BrightnessComesBack | src/backlight.rs:239-272 | over any number of dims, frames, restores and reloads, a last restore settles at exactly what the user had |
| Backlight.DimThenRestore | src/backlight.rs:207-272 | one dim is undone at every interruption point, to what it read |
| Backlight.ForeignChangeExactly | src/backlight.rs:259-268 | a panel somebody else set while dimmed is left alone exactly if they chose another value than the controller's last and no frame of a running fade comes after it, cancelled or not |
| Backlight.KeyPressLostInFade | src/backlight.rs:323-335 | a change during the fade is lost to its next frame: the restore goes back to what was before the dim |
| Backlight.UnreadableLosesIt | src/backlight.rs:252-258 | a restore that cannot read gives the brightness up unless the panel never left it |
| Backlight.StepsZeroExactly | src/backlight.rs:309-313 | a fade has no steps exactly if its whole 16 ms steps are a positive multiple of 2^32 |
| Backlight.DimArrivesExactly | src/backlight.rs:207-235 | on a working panel a dim arrives at its target, whatever frames, dims and reloads come while it fades, exactly if its fade has steps or there is nowhere to go: at the smaller of what was shown and the percentage asked for, or the floor |
| Backlight.RestoreShows | src/backlight.rs:239-272 | a restore settles at the brightness owed if its fade has steps, and otherwise leaves the panel where the last fade was stopped |
| Backlight.StepsFillTheTransition | src/backlight.rs:309-313 | below that a fade has as many steps as fit into its transition |
| Backlight.StepsPositive | src/backlight.rs:309-313 | so every fade shorter than 2^32 steps has one |
| Backlight.LongestFadeHasNoSteps | src/backlight.rs:309-313 | and that one has none |
| Backlight.NoStepsNoDim | src/backlight.rs:309-338 | a dim without steps never moves the panel |
| ControllerObject.Fade.Frame | src/backlight.rs:323-335 | one frame of the task, on the panel and the cell it shares |
| ControllerObject.Controller.StopFade | src/backlight.rs:344-349 | cancel and wait, with the step that still gets through |
| ControllerObject.Controller.FadeTo | src/backlight.rs:303-340 | a jump, a task, or nothing |
| ControllerObject.Controller.DimTo | src/backlight.rs:207-235 | dimming, with every failure |
| ControllerObject.Controller.Restore | src/backlight.rs:239-272 | restoring, with every failure |
| ControllerObject.Controller.Settle | src/backlight.rs:276-280 | the fade runs out |
| ControllerObject.Controller.Reconfigure | src/backlight.rs:186-204 | only a new device costs the dim state |
| Brightness.InStep | src/main.rs:370-371 | along every run the controller is dimmed exactly if the daemon last said so, and keeps the brightness it owes: the first one, or what the last dim that cut a ramp short has read |
| Brightness.BrightnessInEveryRun | src/main.rs:370-371 | whenever a drained daemon is back in Active, the controller is still dimmed exactly since AC ended a Grace with a dimmed panel, and otherwise the panel settles at exactly the brightness owed, which is the user's own if no dim cut a ramp short |
| Hysteresis.FlappingIsBounded | src/core.rs:848-875 | (flips - 1) times the width of the band is at most the total variation of the readings |
| Hysteresis.QuietInTheBand | src/core.rs:860-875 | readings inside the band never flip it |
| Hysteresis.EngineFollows | src/core.rs:848-858 | the engine's flag is that of the readings, and it sends something at most once per flip |
| Hysteresis.SwitchingIsBounded | src/core.rs:848-858 | so in a validated config mode switches are bounded by the variation of the readings |
| Limits.GraceLeavesDimmed | src/core.rs:824-828 | dimmed, AC lost, AC back: Active with a dimmed panel |
| Limits.LightsUntouched | src/core.rs:816-846 | outside Checking a change of AC sends nothing to the panel |
| Limits.LeftoverFires | src/core.rs:631-660 | taking a window or Grace timer changes nothing in the daemon, but that the timer is gone, exactly outside the phases that wait for it |
| Limits.TimersOutliveTheCycle | src/core.rs:787-812 | a drain that begins in the cycle and ends outside it leaves the window or the Grace timer running exactly if it was, is not what went off, and the event is not one that takes it back |
| Limits.WindowOutlivesTheCycle | src/core.rs:787-800 | a way out of the cycle that leaves the window running |
| Limits.StagesOnExactly | src/core.rs:593-629 | past Grace the stages are off, except exactly since a suspend or a resume in Grace in a mode with stages, and until stages are sent |
| Limits.StagesStayOn | src/core.rs:593-629 | both ways past Grace that leave the idle stages on |
| Limits.AlarmExactly | src/main.rs:329-363 | a device is armed exactly since a write to it that nothing has emptied |
| Limits.OrphanExactly | src/main.rs:495-498 | an armed device is without a handle exactly since a reload took it away |
| Limits.MissedExactly | src/main.rs:356-363 | an alarm has been left behind exactly if a clear failed: its write did, or a reload had taken the handle away |
| Limits.AlarmLeftExactly | src/main.rs:356-363 | drained and not past Grace, a device holds an alarm exactly since a clear left it there and nothing has emptied it, whatever other clears failed before |
| Limits.ReloadLeavesTheAlarm | src/main.rs:495-498 | a reload that disables the server, then a cancelled cycle, each drained to the end: Active, and the alarm still armed |
| Limits.AsleepWithAlarmExactly | src/core.rs:593-607 | a suspend handed over in the cycle has its alarm in the hardware; when the machine goes down in answer, that alarm is missing exactly if since then it has gone off or been cleared with none written after it |
| Limits.WindowWhileAsked | src/core.rs:483-512 | activity while a request is open: one failed attempt, Armed again with a window, the request still open |
| Limits.DownWithoutAlarm | src/core.rs:593-607 | from there the window ends, the next wake clears the alarm and cannot be written, the request is granted: asleep in the cycle with no alarm |
| Limits.DanglingExactly | src/core.rs:338-345 | the manual mode is one the config lacks exactly since a reload dropped it |
| Limits.ManualModeOutlivesItsEntry | src/core.rs:338-345 | a reload keeps a manual mode its config lacks, without stages |
| Limits.TwoRefusalsStrand | src/core.rs:514-540 | two accepted requests, two refusals: Suspending with nothing to wait for |
| Limits.RetriesTurnedOffStrand | src/core.rs:533-540 | a retry is pending, retries are turned off, and the retry is blocked: the same |
| Limits.RetryWhileAsleep | src/core.rs:631-640 | a request made and refused while asleep is made again while asleep |

## Left out

- Runs.NoDeadState: excepts Suspending since a move that strands it, for which it is false; `Runs.StuckExactly` says exactly when.
- Runs.PanelRestored: excludes runs in which the panel was stranded, for which it is false; `Lights.DarkInActiveExactly` says exactly when.
- Runs.AlarmDiesWithTheCycle: its half about the hardware says nothing in the rest of a run in which some clear has failed; `Limits.AlarmLeftExactly` says for every run exactly when a device still holds an alarm.
- Fields.SentExactly: is about which commands an event sends, not their order; where the order matters it is in what they come to (`Effects`) and in the pivots of the invariant.
- Brightness.InStep: is about runs in which every access to the panel works, nobody else writes to it, the device stays and every fade has steps; `Backlight.UnreadableLosesIt`, `Backlight.ForeignChangeExactly` and `Backlight.KeptExactly` say what the others lose.
- Brightness.BrightnessInEveryRun: the same runs.
- DaemonObject.Daemon.Execute: hands Dim and Undim to no controller object, which `Brightness` composes with the runs on values, and keeps the RTC cells as values; `Wake.Wakealarm` is the object for one of them.
- That logind answers every request it has accepted: `Runs.NoDeadState` counts an open request as something to wait for, and no run is required to answer it.
- Wayland, D-Bus, netlink, sockets, sysfs and files are arbitrary inputs and answers, or abstract cells (the panel, the RTC attribute).
- The `rtcwake` helper: only the `wakealarm` attribute is modelled.
- The text forms: TOML, JSON, durations, the agent's messages, the words of errors.
- What `status` reports beyond the state, timer deadlines, the persisted state file, hooks, systemd notification and logging: nothing is decided by them.
- Mode attributes written to sysfs, the logind.conf check, device discovery, the weighted battery average, the idle-hint fallback: folds or I/O around the state machine.
- Validation of log level, display backend and sysfs paths: no modelled behaviour depends on them. The first mode of a config is a field, not computed from the names.
- What follows an executed Shutdown: the run ends there.
- Counters are unbounded (request and inhibitor ids, timer generations, the 64-bit product of a ramp of more than 2^31 steps).
- Tasks interleave between whole steps: a drain is one command at a time, a fade frame stores and writes as one, and a cancelled fade makes at most one more.
