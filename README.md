# Pomodoro timer: state machine and session ledger

A Dafny model of the core of `PomodoroApp` in `main.py`, a desktop focus timer.
The timer alternates work phases with short and long breaks. Every fourth cycle takes
the long break. Each completed work phase is recorded in the user's ledger, which
credits one coin per minute worked. The model covers:

- the timer state machine: start, pause, resume, stop, reset, the per-second `countdown`
  callback, and the three helpers `run_work_timer`, `run_break_timer` and
  `prepare_next_work_cycle`;
- the ledger (`user_data`): its default at start-up, recording a session, and the
  "total work time today" over the last five sessions;
- the `divmod` split of the remaining time into minutes and seconds.

Layout:

- `options.dfy`: `Options.Option`.
- `clock.dfy`: `Clock`. A moment is a number of wall-clock seconds counted from a midnight.
  `DayOf` stands for the `%Y-%m-%d` date. `MinuteOfDay` stands for `%H:%M`, as hours * 60 + minutes.
- `ledger.dfy`: `Ledger`. Sessions, the ledger value, recording, and the daily total.
  The daily total is a loop, `TodayTotal`, proved against the recursive `TodaySum`.
- `timer.dfy`: `Timer`. A snapshot `AppState` of the app's fields. One function per
  timer method of the source, calling the others as the source does. Also the invariant `Inv`
  and the step relation `Step`/`Run` over user commands and timer ticks.
- `timer_laws.dfy`: `TimerLaws`. The properties of the state machine, proved about `Timer`.
- `app.dfy`: `App.PomodoroApp`. The class with the source's fields (`timerRunning`,
  `timerType`, `remainingTime`, `currentCycle`, `cycles`, `currentTimer`, the ledger's
  `coins` and `sessions`). Each method updates them in place. The methods that drive
  the timer are proved to produce exactly the state the `Timer` function of the same name
  gives. `LockScreen` and `RecordWorkSession` state their new fields directly, the latter
  through `Ledger.RecordWorkSession`. The public methods also keep `Timer.Inv`. The
  `Timer` functions carry no contract of their own: the `App.PomodoroApp` rows below
  cover each of them, and the `TimerLaws` rows state their properties.

Inputs that the source reads from the environment are parameters here:

- The three entry fields are read again on every call, so each method takes the current
  `Config`. `Config` holds `int(float(s) * 60)` seconds for each field. For the work field
  it also holds `int(s)`, or `None` where `int` raises.
- The clock (`datetime.now()`) is a parameter `now`. The statistics view's day is a parameter `today`.
- The stored ledger read at start-up is a parameter `stored` of the constructor.

The Tk `after` scheduler is modelled by one slot, `currentTimer`/`scheduled`. It holds the
argument the pending `countdown` call will receive. `FirePending` is the event loop running
that call one second later. `stop_timer`'s `after_cancel` empties the slot.

Behaviour of main.py the model keeps:

- `remaining_time` starts at 0, not at the work length (main.py:29).
- Ending a work phase does not advance `current_cycle`; only ending or stopping a break does
  (main.py:157, main.py:167). After the first 25-minute phase the cycle is therefore still 1
  (`TimerLaws.DefaultScenario`).
- Ending a break leaves the timer stopped (main.py:188).
- `pause_timer` does not cancel the pending callback (main.py:100-103). If no resume or
  start comes first, that callback later runs while the timer is stopped and does nothing.
- A session's duration and the coins it earns are `duration / 60`, a true division. The
  model uses `real` for both.
- The code has no operation that spends coins, and it does not validate the entry fields.

## Model

| member | source | states |
|---|---|---|
| Clock.DayOf | main.py:212 | the session date is the day whose 86400 seconds contain the moment |
| Clock.MinuteOfDay | main.py:213-214 | `%H:%M` is the minute of the day (0..1439) in which the moment falls |
| Clock.ClockSpan | main.py:213-214 | for a whole-minute duration d, the end time is d/60 minutes after the start time on the 24-hour dial, across midnight too |
| Ledger.LoadUserData | main.py:234-239 | with nothing stored the ledger is 0 coins and no sessions; otherwise it is what was stored |
| Ledger.Minutes | main.py:215 | the stored duration in minutes times 60 is the duration in seconds |
| Ledger.RecordWorkSession | main.py:208-218 | exactly one session is appended and earlier ones are unchanged; it carries today's date, end time now and start time now minus the duration; its minutes are duration/60; coins grow by exactly those minutes |
| Ledger.CoinsFollowSessions | main.py:211-218 | recording keeps "coins minus recorded minutes" constant: every coin credited is a minute recorded |
| Ledger.RecentWindow | main.py:226 | the window is the last min(5, n) sessions, in order |
| Ledger.TodayTotal | main.py:225-230 | the loop's total equals the sum, over the last five sessions, of the minutes of those dated today |
| Ledger.TodaySumConcat | main.py:226-229 | the daily sum over two lists joined is the sum of the two sums |
| Ledger.TodaySumBounds | main.py:228-229 | with non-negative durations the daily sum lies between 0 and the total; it is the total when all sessions are today's and 0 when none is |
| Ledger.TodayTotalAfterRecord | main.py:218-229 | after recording a session today, the daily total gains its minutes and loses those of the session leaving the five-session window, if that one was today's |
| Timer.Initial | main.py:24-39 | a new app is idle in Work, cycle 1, no completed phases, remaining time 0, no pending callback, no lock requests, invariant holds; the ledger is empty when nothing was stored and is the stored one otherwise |
| Timer.BreakFor | main.py:157-162 | the break after a work phase is never Work, and it is the long break exactly when the cycle is a multiple of 4 |
| Timer.NextCycle | main.py:167 | the next cycle lies in 1..4 and is one more than the current cycle modulo 4 |
| Timer.PhaseSeconds | main.py:157-162 | every phase has a positive length under a valid configuration |
| Timer.SplitMinutes | main.py:191 | minutes * 60 + seconds is the remaining time, with 0 <= seconds < 60 and minutes >= 0 for a non-negative time |
| TimerLaws.StartLaw | main.py:122-130 | start does nothing while running; otherwise it always ends running in Work at the full work length with the next tick scheduled, from idle, paused or a break alike; cycle, count and ledger unchanged |
| TimerLaws.PauseLaw | main.py:100-103 | pause does nothing unless running; otherwise it only clears the running flag |
| TimerLaws.ResumeLaw | main.py:105-109 | resume does nothing while running; when stopped with a positive remaining time it counts down again from that frozen time, phase and cycle unchanged |
| TimerLaws.PauseThenResume | main.py:100-109 | in the model, whose `after` queue holds one callback, pause followed by resume with no tick in between gives back the same state |
| TimerLaws.CountdownStep | main.py:172-176 | while running with seconds > 0, countdown shows `seconds` and schedules `seconds - 1`; while not running it changes nothing |
| TimerLaws.RunBreakArms | main.py:156-163 | run_break_timer starts the break the cycle calls for at its full length, with the next tick scheduled |
| TimerLaws.WorkCompletion | main.py:177-183 | a work phase ending adds exactly one completed phase, one session and one lock request; the break is long iff cycle % 4 == 0, runs at full length, and the cycle is unchanged |
| TimerLaws.BreakCompletion | main.py:184-188 | a break ending arms Work at full length in the next cycle and leaves the timer stopped |
| TimerLaws.StopLaw | main.py:132-139 | stop does nothing unless running; otherwise it stops and cancels the pending tick; a stopped work phase keeps its time and cycle, a stopped break is skipped to the next cycle's Work |
| TimerLaws.ResetLaw | main.py:141-149 | after reset: stopped, no completed phases, cycle 1, Work, ledger unchanged; full work time when the field is a whole number, else the time stop left |
| TimerLaws.CountdownKeepsInv | main.py:172-188 | a countdown call from a state with the cycle in range and nothing negative ends in a state satisfying the invariant |
| TimerLaws.StepKeepsInv | main.py:100-188 | every command and every tick keeps the invariant: cycle in 1..4, no negative time or tick argument, and while running the pending tick is remaining - 1 |
| TimerLaws.RunKeepsInv | main.py:100-188 | every state reachable by any sequence of commands and ticks keeps the invariant |
| TimerLaws.CountdownExtendsLedger | main.py:177-183 | a countdown call only appends to the ledger, and appends a session exactly when it counts a completed phase |
| TimerLaws.StepExtendsLedger | main.py:100-188 | every command and tick only appends to the ledger with coins matching the minutes appended; except reset, the count grows with the sessions |
| TimerLaws.RunExtendsLedger | main.py:100-218 | over any run the ledger only grows at its end with coins moving by exactly the minutes appended; with no reset, completed phases grow by the number of sessions recorded |
| TimerLaws.CountdownRun | main.py:172-176 | while a phase runs, each tick takes exactly one second off the remaining time and keeps the phase |
| TimerLaws.PhaseEnds | main.py:172-177 | a running phase showing d seconds reaches the completion branch at exactly the d-th tick |
| TimerLaws.RoundLaw | main.py:122-188 | from idle: start plus the work length in ticks puts the cycle's break running, at full length, with one more session; its length in ticks more leaves the timer idle in the next cycle's Work |
| TimerLaws.FourCycleLaw | main.py:141-188 | from a reset, four rounds take short, short, short, then long breaks and return to cycle 1 with four completed phases and four new sessions |
| TimerLaws.DefaultScenario | main.py:21-23 | with 25/5/20 minutes, 1500 ticks after start: short break of 300 s running, 25 coins, one session, cycle still 1 |
| App.PomodoroApp.constructor | main.py:16-39 | the fields start as `Timer.Initial` gives, with the loaded ledger |
| App.PomodoroApp.PauseTimer | main.py:100-103 | the fields become `Timer.PauseTimer` of the old ones; invariant kept |
| App.PomodoroApp.ResumeTimer | main.py:105-109 | the fields become `Timer.ResumeTimer` of the old ones; invariant kept |
| App.PomodoroApp.StartTimer | main.py:122-130 | the fields become `Timer.StartTimer` of the old ones; invariant kept |
| App.PomodoroApp.StopTimer | main.py:132-139 | the fields become `Timer.StopTimer` of the old ones; invariant kept |
| App.PomodoroApp.ResetTimer | main.py:141-149 | the fields become `Timer.ResetTimer` of the old ones; reports whether `int()` of the work field succeeded |
| App.PomodoroApp.RunWorkTimer | main.py:151-154 | the fields become `Timer.RunWorkTimer` of the old ones |
| App.PomodoroApp.RunBreakTimer | main.py:156-163 | the fields become `Timer.RunBreakTimer` of the old ones |
| App.PomodoroApp.PrepareNextWorkCycle | main.py:165-170 | the fields become `Timer.PrepareNextWorkCycle` of the old ones |
| App.PomodoroApp.Countdown | main.py:172-188 | the fields become `Timer.Countdown` of the old ones |
| App.PomodoroApp.FirePending | main.py:176 | running the pending callback moves the fields as `Timer.FirePending`; invariant kept |
| App.PomodoroApp.LockScreen | main.py:205-206 | one more screen-lock request, nothing else changes |
| App.PomodoroApp.RecordWorkSession | main.py:208-218 | the ledger fields become `Ledger.RecordWorkSession` of the old ledger; nothing else changes |
| App.PomodoroApp.UpdateDisplay | main.py:190-192 | the minutes and seconds shown recompose the remaining time, seconds in 0..59 |
| App.PomodoroApp.UpdateStatsDisplay | main.py:223-230 | the total shown is today's minutes over the last five sessions |

## Left out

- Widgets, labels, the tab layout and the re-binding of button texts and commands
  (main.py:43-98, main.py:103, main.py:108, main.py:125, main.py:135, main.py:187): user
  interface. Each operation is modelled by its own guard, not by which button is bound to it.
- Sound playback (main.py:33-36, main.py:127, main.py:179, main.py:185): external library.
- The screen lock (main.py:205-206): an operating-system call. Only a count of requests is
  kept. The model assumes the call returns, as the Windows call does. Elsewhere `ctypes.windll`
  does not exist, the call raises, and the break is never started (main.py:183).
- Reading and writing `user_data.json` (main.py:234-243): file access. Only the default
  ledger on a missing file is modelled; the contents of an existing file are taken as given.
  Nothing is modelled for JSON that fails to parse.
- Parsing the entry fields (main.py:146, main.py:153, main.py:210): float parsing. The
  durations are whole seconds in `Config`.
- Timer.ValidConfig: all public methods require positive durations. With a zero or negative
  duration the source divides by zero in `update_display` (main.py:202) or ends a phase at once.
- The progress bar fraction (main.py:196-203): float arithmetic for display only.
- The text of the time and statistics labels (main.py:192-193, main.py:224-232): formatting only.
- Several pending callbacks at once: `pause_timer` does not cancel the pending callback,
  so a `resume_timer` or a `start_timer` before it fires starts a second countdown chain
  beside the first (main.py:100-109, main.py:122-130, main.py:176). Through the buttons
  only `resume_timer` can follow a pause: the start button is bound to `stop_timer` from
  main.py:125 until main.py:135 or main.py:187 rebinds it. The single `scheduled` slot holds
  only the latest chain, so the model hides the second one. What it then does depends on
  which chain reaches 0 first and in which phase. One case: when the pause came during a
  work phase and `resume_timer` follows, the second chain reaches 0 less than a second
  after the first has started the break (main.py:177-183), takes the break branch
  (main.py:184-188), and so skips the break, advances the cycle and stops the timer.
- Resume on a fresh app: in the model `ResumeTimer` on the initial state runs
  `countdown(0)` and completes a work phase (one session, its coins). The application
  cannot reach this: the pause button starts bound to `pause_timer` (main.py:92), and only
  `pause_timer` rebinds it to `resume_timer` (main.py:103). `TimerLaws.ResumeLaw` states
  resume only for a positive remaining time, the case the button reaches.
- Ledger.TodayTotal: takes one `today` for the whole loop, while the source reads the clock
  once per session (main.py:228). The two differ only if the loop straddles midnight.
- TimerLaws.PhaseEnds, TimerLaws.RoundLaw, TimerLaws.FourCycleLaw, TimerLaws.DefaultScenario:
  the configuration and the clock reading are held fixed over the ticks they follow.
- Python floats: coins and minutes are exact `real` numbers here, and wall-clock time
  ignores time zones and daylight-saving changes.
