/** The timer state machine of `PomodoroApp`, as functions over a snapshot of its fields.
    Each function mirrors one method of main.py, calls included, so that
    `StartTimer` is `RunWorkTimer`, which is `Countdown`, exactly as in the source.

    Widgets, sounds, the file store and the Tk event loop are not part of this model: the
    one callback that `after` keeps pending is the `scheduled` slot (the argument it will
    be called with), and `FirePending` is the event loop running it a second later. */
module Timer {
  import opened Options
  import Ledger

  datatype Phase = Work | ShortBreak | LongBreak

  /** The three durations as the entry fields parse when the method reads them:
      `int(float(s) * 60)` seconds each, and, for the work field, `int(s)` when the text
      is a whole number (`None` where `int` raises `ValueError`). */
  datatype Config = Config(workSeconds: int, shortBreakSeconds: int, longBreakSeconds: int,
                           workMinutes: Option<int>)

  predicate ValidConfig(cfg: Config)
  {
    cfg.workSeconds > 0 && cfg.shortBreakSeconds > 0 && cfg.longBreakSeconds > 0 &&
    (cfg.workMinutes.Some? ==> cfg.workMinutes.value * 60 == cfg.workSeconds)
  }

  const CyclesPerLongBreak: int := 4

  /** The fields of `PomodoroApp` the timer reads and writes, with the ledger and a count
      of screen-lock requests. */
  datatype AppState = AppState(
    running: bool,            // timer_running
    phase: Phase,             // timer_type
    remaining: int,           // remaining_time, in seconds
    cycle: int,               // current_cycle, the position in the block of four
    cycles: nat,              // cycles, the completed work phases
    scheduled: Option<int>,   // the argument of the countdown callback `after` holds
    data: Ledger.UserData,    // user_data
    lockRequests: nat)        // how often lock_screen was called

  /** The state every reachable snapshot keeps: the cycle stays in 1..4, no time or
      callback argument is negative, and while the timer runs the next callback is
      the one that counts down from the time on display. */
  predicate Inv(s: AppState)
  {
    1 <= s.cycle <= CyclesPerLongBreak &&
    s.remaining >= 0 &&
    (s.scheduled.Some? ==> s.scheduled.value >= 0) &&
    (s.running ==> s.scheduled == Some(s.remaining - 1))
  }

  /** `__init__`: idle, in Work, cycle 1, nothing done, with the loaded ledger. */
  function Initial(stored: Option<Ledger.UserData>): (s: AppState)
    ensures Inv(s) && !s.running && s.phase == Work && s.cycle == 1 && s.cycles == 0
    ensures s.remaining == 0 && s.scheduled == None && s.lockRequests == 0
    ensures stored.None? ==> s.data.coins == 0.0 && s.data.sessions == []
    ensures stored.Some? ==> s.data == stored.value
  {
    AppState(false, Work, 0, 1, 0, None, Ledger.LoadUserData(stored), 0)
  }

  /** The break that follows the work phase of cycle `cycle`. */
  function BreakFor(cycle: int): (p: Phase)
    ensures p != Work
    ensures p == LongBreak <==> cycle % CyclesPerLongBreak == 0
  {
    if cycle % CyclesPerLongBreak == 0 then LongBreak else ShortBreak
  }

  /** The cycle after `cycle`, wrapping from 4 back to 1. */
  function NextCycle(cycle: int): (next: int)
    ensures 1 <= next <= CyclesPerLongBreak
    ensures (next - cycle - 1) % CyclesPerLongBreak == 0
  {
    cycle % CyclesPerLongBreak + 1
  }

  /** The full length of a phase under `cfg`. */
  function PhaseSeconds(p: Phase, cfg: Config): (seconds: int)
    ensures ValidConfig(cfg) ==> seconds > 0
  {
    match p
    case Work => cfg.workSeconds
    case LongBreak => cfg.longBreakSeconds
    case ShortBreak => cfg.shortBreakSeconds
  }

  /** `divmod(remaining_time, 60)`: whole minutes and leftover seconds. */
  function SplitMinutes(t: int): (r: (int, int))
    ensures r.0 * 60 + r.1 == t && 0 <= r.1 < 60
    ensures t >= 0 ==> r.0 >= 0
  {
    (t / 60, t % 60)
  }

  function PauseTimer(s: AppState): AppState
  {
    if s.running then s.(running := false) else s
  }

  function ResumeTimer(s: AppState, cfg: Config, now: int): AppState
  {
    if !s.running then Countdown(s.(running := true), s.remaining, cfg, now) else s
  }

  function StartTimer(s: AppState, cfg: Config, now: int): AppState
  {
    if !s.running then RunWorkTimer(s.(running := true), cfg, now) else s
  }

  /** Stopping cancels the pending callback; stopping in a break skips it. */
  function StopTimer(s: AppState, cfg: Config): AppState
  {
    if s.running then
      var stopped := s.(running := false, scheduled := None);
      if stopped.phase != Work then PrepareNextWorkCycle(stopped, cfg) else stopped
    else s
  }

  /** Reset reads the work field with `int(s)`; when that raises, the assignments before
      it have happened and `remaining_time` keeps its value. */
  function ResetTimer(s: AppState, cfg: Config): AppState
  {
    var t := StopTimer(s, cfg).(cycles := 0, cycle := 1, phase := Work);
    match cfg.workMinutes
    case Some(m) => t.(remaining := m * 60)
    case None => t
  }

  function RunWorkTimer(s: AppState, cfg: Config, now: int): AppState
  {
    Countdown(s.(phase := Work, remaining := cfg.workSeconds), cfg.workSeconds, cfg, now)
  }

  function RunBreakTimer(s: AppState, cfg: Config, now: int): AppState
    decreases 1
  {
    var p := BreakFor(s.cycle);
    var seconds := PhaseSeconds(p, cfg);
    Countdown(s.(phase := p, remaining := seconds), seconds, cfg, now)
  }

  function PrepareNextWorkCycle(s: AppState, cfg: Config): AppState
  {
    s.(phase := Work, cycle := NextCycle(s.cycle), remaining := cfg.workSeconds)
  }

  /** `countdown(seconds)`: show `seconds` and schedule `seconds - 1`, or, at zero, end
      the phase. Ending a work phase counts it, records it, asks for the screen lock and
      starts the break; ending a break prepares the next work phase and stops. */
  function Countdown(s: AppState, seconds: int, cfg: Config, now: int): AppState
    decreases if s.phase == Work then 2 else 0
  {
    if seconds > 0 && s.running then
      s.(remaining := seconds, scheduled := Some(seconds - 1))
    else if s.running then
      if s.phase == Work then
        var counted := s.(cycles := s.cycles + 1,
                          data := Ledger.RecordWorkSession(s.data, cfg.workSeconds, now),
                          lockRequests := s.lockRequests + 1);
        RunBreakTimer(counted, cfg, now)
      else
        PrepareNextWorkCycle(s, cfg).(running := false)
    else
      s
  }

  /** The event loop runs the pending callback, if there is one. */
  function FirePending(s: AppState, cfg: Config, now: int): AppState
  {
    match s.scheduled
    case None => s
    case Some(seconds) => Countdown(s.(scheduled := None), seconds, cfg, now)
  }

  /** `n` seconds of the event loop, under one configuration and one clock reading. */
  function Ticks(s: AppState, n: nat, cfg: Config, now: int): AppState
    decreases n
  {
    if n == 0 then s else Ticks(FirePending(s, cfg, now), n - 1, cfg, now)
  }

  /** What the user or the event loop can do next. */
  datatype Command = Start | Pause | Resume | Stop | Reset | Tick
  datatype Event = Event(command: Command, cfg: Config, now: int)

  function Step(s: AppState, e: Event): AppState
  {
    match e.command
    case Start => StartTimer(s, e.cfg, e.now)
    case Pause => PauseTimer(s)
    case Resume => ResumeTimer(s, e.cfg, e.now)
    case Stop => StopTimer(s, e.cfg)
    case Reset => ResetTimer(s, e.cfg)
    case Tick => FirePending(s, e.cfg, e.now)
  }

  function Run(s: AppState, events: seq<Event>): AppState
    decreases |events|
  {
    if events == [] then s else Run(Step(s, events[0]), events[1..])
  }
}
