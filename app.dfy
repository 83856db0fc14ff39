/** `PomodoroApp` of main.py without its widgets: the fields the timer and the ledger
    update in place, and one method per method of the source, each calling the others as
    the source does. The methods that drive the timer are proved to move the fields exactly
    as the function of the same name in `Timer` says, and the public ones also keep the
    invariant `Timer.Inv`. `LockScreen`, `RecordWorkSession`, `UpdateDisplay` and
    `UpdateStatsDisplay` state their effect or result directly. */
module App {
  import opened Options
  import Clock
  import Ledger
  import opened Timer
  import TimerLaws

  class PomodoroApp {
    var timerRunning: bool
    var timerType: Phase
    var remainingTime: int
    var currentCycle: int
    var cycles: nat
    /** The pending `after` callback, as the argument it will be called with. */
    var currentTimer: Option<int>
    var coins: real
    var sessions: seq<Ledger.Session>
    /** How many times the screen lock was requested. */
    var lockRequests: nat

    function State(): AppState
      reads this
    {
      AppState(timerRunning, timerType, remainingTime, currentCycle, cycles, currentTimer,
               Ledger.UserData(coins, sessions), lockRequests)
    }

    predicate Valid()
      reads this
    {
      Inv(State())
    }

    /** `__init__`, with `stored` the ledger found on disk, if any. */
    constructor (stored: Option<Ledger.UserData>)
      ensures Valid() && State() == Initial(stored)
    {
      timerRunning := false;
      currentTimer := None;
      remainingTime := 0;
      timerType := Work;
      cycles := 0;
      currentCycle := 1;
      lockRequests := 0;
      var data := Ledger.LoadUserData(stored);
      coins := data.coins;
      sessions := data.sessions;
    }

    method PauseTimer()
      requires Valid()
      modifies this
      ensures Valid() && State() == Timer.PauseTimer(old(State()))
    {
      if timerRunning {
        timerRunning := false;
      }
    }

    method ResumeTimer(cfg: Config, now: int)
      requires Valid() && ValidConfig(cfg)
      modifies this
      ensures Valid() && State() == Timer.ResumeTimer(old(State()), cfg, now)
    {
      if !timerRunning {
        timerRunning := true;
        Countdown(remainingTime, cfg, now);
      }
      TimerLaws.StepKeepsInv(old(State()), Event(Resume, cfg, now));
    }

    method StartTimer(cfg: Config, now: int)
      requires Valid() && ValidConfig(cfg)
      modifies this
      ensures Valid() && State() == Timer.StartTimer(old(State()), cfg, now)
    {
      if !timerRunning {
        timerRunning := true;
        RunWorkTimer(cfg, now);
      }
      TimerLaws.StepKeepsInv(old(State()), Event(Start, cfg, now));
    }

    method StopTimer(cfg: Config)
      requires Valid() && ValidConfig(cfg)
      modifies this
      ensures Valid() && State() == Timer.StopTimer(old(State()), cfg)
    {
      if timerRunning {
        timerRunning := false;
        currentTimer := None;
        if timerType != Work {
          PrepareNextWorkCycle(cfg);
        }
      }
    }

    /** Returns false where `int()` on the work field raises, after the earlier
        assignments of the source have taken effect. */
    method ResetTimer(cfg: Config) returns (ok: bool)
      requires Valid() && ValidConfig(cfg)
      modifies this
      ensures ok == cfg.workMinutes.Some?
      ensures Valid() && State() == Timer.ResetTimer(old(State()), cfg)
    {
      StopTimer(cfg);
      cycles := 0;
      currentCycle := 1;
      timerType := Work;
      match cfg.workMinutes {
        case None =>
          ok := false;
        case Some(minutes) =>
          remainingTime := minutes * 60;
          ok := true;
      }
    }

    method RunWorkTimer(cfg: Config, now: int)
      modifies this
      ensures State() == Timer.RunWorkTimer(old(State()), cfg, now)
    {
      timerType := Work;
      remainingTime := cfg.workSeconds;
      Countdown(remainingTime, cfg, now);
    }

    method RunBreakTimer(cfg: Config, now: int)
      modifies this
      ensures State() == Timer.RunBreakTimer(old(State()), cfg, now)
      decreases 1
    {
      if currentCycle % CyclesPerLongBreak == 0 {
        timerType := LongBreak;
        remainingTime := cfg.longBreakSeconds;
      } else {
        timerType := ShortBreak;
        remainingTime := cfg.shortBreakSeconds;
      }
      Countdown(remainingTime, cfg, now);
    }

    method PrepareNextWorkCycle(cfg: Config)
      modifies this
      ensures State() == Timer.PrepareNextWorkCycle(old(State()), cfg)
    {
      timerType := Work;
      currentCycle := currentCycle % CyclesPerLongBreak + 1;
      remainingTime := cfg.workSeconds;
    }

    method Countdown(seconds: int, cfg: Config, now: int)
      modifies this
      ensures State() == Timer.Countdown(old(State()), seconds, cfg, now)
      decreases if timerType == Work then 2 else 0
    {
      if seconds > 0 && timerRunning {
        remainingTime := seconds;
        currentTimer := Some(seconds - 1);
      } else if timerRunning {
        if timerType == Work {
          cycles := cycles + 1;
          RecordWorkSession(cfg, now);
          LockScreen();
          RunBreakTimer(cfg, now);
        } else {
          PrepareNextWorkCycle(cfg);
          timerRunning := false;
        }
      }
    }

    /** The Tk event loop runs the pending callback a second after it was scheduled. */
    method FirePending(cfg: Config, now: int)
      requires Valid() && ValidConfig(cfg)
      modifies this
      ensures Valid() && State() == Timer.FirePending(old(State()), cfg, now)
    {
      match currentTimer {
        case None =>
        case Some(seconds) =>
          currentTimer := None;
          Countdown(seconds, cfg, now);
      }
      TimerLaws.StepKeepsInv(old(State()), Event(Tick, cfg, now));
    }

    method LockScreen()
      modifies this
      ensures State() == old(State()).(lockRequests := old(lockRequests) + 1)
    {
      lockRequests := lockRequests + 1;
    }

    /** Appends the session that ended at `now` and credits its minutes as coins. */
    method RecordWorkSession(cfg: Config, now: int)
      modifies this
      ensures State() == old(State()).(data := Ledger.RecordWorkSession(old(State()).data, cfg.workSeconds, now))
    {
      var duration := cfg.workSeconds;
      var minutes := Ledger.Minutes(duration);
      sessions := sessions + [Ledger.Session(Clock.DayOf(now), Clock.MinuteOfDay(now - duration),
                                             Clock.MinuteOfDay(now), minutes)];
      coins := coins + minutes;
    }

    /** The minutes and seconds `update_display` shows. */
    method UpdateDisplay() returns (minutes: int, seconds: int)
      ensures minutes * 60 + seconds == remainingTime && 0 <= seconds < 60
    {
      minutes, seconds := SplitMinutes(remainingTime).0, SplitMinutes(remainingTime).1;
    }

    /** The daily total `update_stats_display` shows, for the day `today`. */
    method UpdateStatsDisplay(today: int) returns (total: real)
      ensures total == Ledger.TodaySum(Ledger.RecentWindow(sessions), today)
    {
      total := Ledger.TodayTotal(sessions, today);
    }
  }
}
