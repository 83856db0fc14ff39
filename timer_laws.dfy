/** What the timer of `PomodoroApp` promises, proved about the functions of `Timer`. */
module TimerLaws {
  import opened Options
  import Ledger
  import opened Timer

  /** Start does nothing while the timer runs; otherwise it always begins a fresh work
      phase at its full length, whether the timer was idle, paused mid-work or in a break. */
  lemma StartLaw(s: AppState, cfg: Config, now: int)
    requires ValidConfig(cfg)
    ensures s.running ==> StartTimer(s, cfg, now) == s
    ensures !s.running ==>
      var r := StartTimer(s, cfg, now);
      r.running && r.phase == Work && r.remaining == cfg.workSeconds &&
      r.scheduled == Some(cfg.workSeconds - 1) &&
      r.cycle == s.cycle && r.cycles == s.cycles && r.data == s.data &&
      r.lockRequests == s.lockRequests
  {
  }

  /** Pause only clears the running flag; it does not cancel the pending callback. */
  lemma PauseLaw(s: AppState)
    ensures !s.running ==> PauseTimer(s) == s
    ensures s.running ==>
      var r := PauseTimer(s);
      !r.running && r.phase == s.phase && r.remaining == s.remaining &&
      r.cycle == s.cycle && r.cycles == s.cycles && r.scheduled == s.scheduled &&
      r.data == s.data && r.lockRequests == s.lockRequests
  {
  }

  /** Resume counts down again from the frozen remaining time. */
  lemma ResumeLaw(s: AppState, cfg: Config, now: int)
    ensures s.running ==> ResumeTimer(s, cfg, now) == s
    ensures !s.running && s.remaining > 0 ==>
      var r := ResumeTimer(s, cfg, now);
      r.running && r.remaining == s.remaining && r.scheduled == Some(s.remaining - 1) &&
      r.phase == s.phase && r.cycle == s.cycle && r.cycles == s.cycles &&
      r.data == s.data && r.lockRequests == s.lockRequests
  {
  }

  /** Pausing a running timer and resuming it before the next second gives back the
      same state, in this model, whose `after` queue holds one callback. In the running
      application the callback that pause left pending still fires, beside the one that
      resume schedules. */
  lemma PauseThenResume(s: AppState, cfg: Config, now: int)
    requires Inv(s) && s.running
    ensures ResumeTimer(PauseTimer(s), cfg, now) == s
  {
  }

  /** One countdown step while running shows `seconds` and schedules `seconds - 1`; while
      not running it changes nothing. */
  lemma CountdownStep(s: AppState, seconds: int, cfg: Config, now: int)
    ensures !s.running ==> Countdown(s, seconds, cfg, now) == s
    ensures s.running && seconds > 0 ==>
      Countdown(s, seconds, cfg, now) == s.(remaining := seconds, scheduled := Some(seconds - 1))
  {
  }

  /** Under a valid configuration a break is armed, never ended, by `run_break_timer`. */
  lemma RunBreakArms(s: AppState, cfg: Config, now: int)
    requires ValidConfig(cfg) && s.running && s.phase == Work
    ensures var seconds := PhaseSeconds(BreakFor(s.cycle), cfg);
      RunBreakTimer(s, cfg, now) ==
        s.(phase := BreakFor(s.cycle), remaining := seconds, scheduled := Some(seconds - 1))
  {
    var seconds := PhaseSeconds(BreakFor(s.cycle), cfg);
    assert seconds > 0;
  }

  /** The end of a work phase: one more completed work phase, one more session in the
      ledger, one screen-lock request, and the break chosen by the cycle (long exactly
      in every fourth cycle) starts running at its full length. The cycle is unchanged. */
  lemma WorkCompletion(s: AppState, seconds: int, cfg: Config, now: int)
    requires ValidConfig(cfg)
    requires s.running && s.phase == Work && seconds <= 0
    ensures var r := Countdown(s, seconds, cfg, now);
      r.cycles == s.cycles + 1 &&
      r.data == Ledger.RecordWorkSession(s.data, cfg.workSeconds, now) &&
      r.lockRequests == s.lockRequests + 1 &&
      r.phase != Work && (r.phase == LongBreak <==> s.cycle % CyclesPerLongBreak == 0) &&
      r.remaining == PhaseSeconds(r.phase, cfg) &&
      r.running && r.scheduled == Some(r.remaining - 1) &&
      r.cycle == s.cycle
  {
    var counted := s.(cycles := s.cycles + 1,
                      data := Ledger.RecordWorkSession(s.data, cfg.workSeconds, now),
                      lockRequests := s.lockRequests + 1);
    RunBreakArms(counted, cfg, now);
  }

  /** The end of a break: the next cycle's work phase is armed at full length and the
      timer stops, waiting for Start. */
  lemma BreakCompletion(s: AppState, seconds: int, cfg: Config, now: int)
    requires s.running && s.phase != Work && seconds <= 0
    ensures var r := Countdown(s, seconds, cfg, now);
      r.phase == Work && r.cycle == NextCycle(s.cycle) &&
      r.remaining == cfg.workSeconds && !r.running &&
      r.cycles == s.cycles && r.data == s.data && r.scheduled == s.scheduled &&
      r.lockRequests == s.lockRequests
  {
  }

  /** Stop does nothing unless the timer runs. Otherwise it stops the timer and cancels
      the pending callback; a work phase keeps its remaining time, a break is skipped. */
  lemma StopLaw(s: AppState, cfg: Config)
    ensures !s.running ==> StopTimer(s, cfg) == s
    ensures s.running ==>
      var r := StopTimer(s, cfg);
      !r.running && r.scheduled == None && r.phase == Work &&
      r.cycles == s.cycles && r.data == s.data && r.lockRequests == s.lockRequests &&
      (s.phase == Work ==> r.remaining == s.remaining && r.cycle == s.cycle) &&
      (s.phase != Work ==> r.remaining == cfg.workSeconds && r.cycle == NextCycle(s.cycle))
  {
  }

  /** Reset stops the timer and returns to cycle 1 of Work with no completed phases; the
      time is the full work length unless the work field is not a whole number. */
  lemma ResetLaw(s: AppState, cfg: Config)
    requires ValidConfig(cfg)
    ensures var r := ResetTimer(s, cfg);
      !r.running && r.cycles == 0 && r.cycle == 1 && r.phase == Work &&
      r.data == s.data &&
      (cfg.workMinutes.Some? ==> r.remaining == cfg.workSeconds) &&
      (cfg.workMinutes.None? ==> r.remaining == StopTimer(s, cfg).remaining)
  {
  }

  /** A countdown call keeps the invariant whenever the state it starts from has its cycle
      in range and nothing negative; it need not yet be consistent with the pending
      callback, which is what `countdown` restores. */
  lemma CountdownKeepsInv(s: AppState, seconds: int, cfg: Config, now: int)
    requires ValidConfig(cfg)
    requires 1 <= s.cycle <= CyclesPerLongBreak && s.remaining >= 0
    requires s.scheduled.Some? ==> s.scheduled.value >= 0
    requires !s.running ==> Inv(s)
    ensures Inv(Countdown(s, seconds, cfg, now))
  {
    if s.running && seconds <= 0 {
      if s.phase == Work {
        WorkCompletion(s, seconds, cfg, now);
      } else {
        BreakCompletion(s, seconds, cfg, now);
      }
    }
  }

  lemma StepKeepsInv(s: AppState, e: Event)
    requires Inv(s) && ValidConfig(e.cfg)
    ensures Inv(Step(s, e))
  {
    match e.command
    case Start =>
      StartLaw(s, e.cfg, e.now);
    case Resume =>
      if !s.running {
        CountdownKeepsInv(s.(running := true), s.remaining, e.cfg, e.now);
      }
    case Tick =>
      if s.scheduled.Some? {
        CountdownKeepsInv(s.(scheduled := None), s.scheduled.value, e.cfg, e.now);
      }
    case Pause =>
    case Stop =>
    case Reset =>
  }

  /** Every state reachable from a valid one keeps the invariant: the cycle stays in 1..4
      and no countdown argument goes negative. */
  lemma {:induction false} RunKeepsInv(s: AppState, events: seq<Event>)
    requires Inv(s)
    requires forall i :: 0 <= i < |events| ==> ValidConfig(events[i].cfg)
    ensures Inv(Run(s, events))
    decreases |events|
  {
    if events != [] {
      StepKeepsInv(s, events[0]);
      RunKeepsInv(Step(s, events[0]), events[1..]);
    }
  }

  /** The ledger only grows at its end, and each coin credited is a minute recorded. */
  predicate LedgerExtends(s: AppState, r: AppState)
  {
    |s.data.sessions| <= |r.data.sessions| &&
    r.data.sessions[..|s.data.sessions|] == s.data.sessions &&
    r.data.coins - Ledger.SumDurations(r.data.sessions) == s.data.coins - Ledger.SumDurations(s.data.sessions)
  }

  /** A countdown call records a session exactly when it counts a completed work phase. */
  lemma CountdownExtendsLedger(s: AppState, seconds: int, cfg: Config, now: int)
    requires ValidConfig(cfg)
    ensures var r := Countdown(s, seconds, cfg, now);
      LedgerExtends(s, r) && r.cycles - s.cycles == |r.data.sessions| - |s.data.sessions|
  {
    var r := Countdown(s, seconds, cfg, now);
    if s.running && seconds <= 0 {
      if s.phase == Work {
        WorkCompletion(s, seconds, cfg, now);
        Ledger.CoinsFollowSessions(s.data, cfg.workSeconds, now);
      } else {
        BreakCompletion(s, seconds, cfg, now);
      }
    }
    assert s.data.sessions[..|s.data.sessions|] == s.data.sessions;
  }

  lemma StepExtendsLedger(s: AppState, e: Event)
    requires ValidConfig(e.cfg)
    ensures LedgerExtends(s, Step(s, e))
    ensures e.command != Reset ==>
      Step(s, e).cycles - s.cycles == |Step(s, e).data.sessions| - |s.data.sessions|
  {
    assert s.data.sessions[..|s.data.sessions|] == s.data.sessions;
    match e.command
    case Start =>
      if !s.running {
        var t := s.(running := true, phase := Work, remaining := e.cfg.workSeconds);
        CountdownExtendsLedger(t, e.cfg.workSeconds, e.cfg, e.now);
      }
    case Resume =>
      if !s.running {
        CountdownExtendsLedger(s.(running := true), s.remaining, e.cfg, e.now);
      }
    case Tick =>
      if s.scheduled.Some? {
        CountdownExtendsLedger(s.(scheduled := None), s.scheduled.value, e.cfg, e.now);
      }
    case Pause =>
    case Stop =>
    case Reset =>
  }

  /** Over any run: sessions are only appended, the balance moves by exactly the minutes
      appended, and without a reset the completed-phase count grows by exactly the number
      of sessions recorded. */
  lemma {:induction false} RunExtendsLedger(s: AppState, events: seq<Event>)
    requires forall i :: 0 <= i < |events| ==> ValidConfig(events[i].cfg)
    ensures LedgerExtends(s, Run(s, events))
    ensures (forall i :: 0 <= i < |events| ==> events[i].command != Reset) ==>
      Run(s, events).cycles - s.cycles == |Run(s, events).data.sessions| - |s.data.sessions|
    decreases |events|
  {
    if events != [] {
      var t := Step(s, events[0]);
      StepExtendsLedger(s, events[0]);
      RunExtendsLedger(t, events[1..]);
      var r := Run(t, events[1..]);
      assert r.data.sessions[..|s.data.sessions|] == r.data.sessions[..|t.data.sessions|][..|s.data.sessions|];
    }
  }

  lemma {:induction false} TicksSplit(s: AppState, a: nat, b: nat, cfg: Config, now: int)
    ensures Ticks(s, a + b, cfg, now) == Ticks(Ticks(s, a, cfg, now), b, cfg, now)
    decreases a
  {
    if a > 0 {
      TicksSplit(FirePending(s, cfg, now), a - 1, b, cfg, now);
    }
  }

  /** While a phase runs, each second takes exactly one second off the remaining time. */
  lemma {:induction false} CountdownRun(s: AppState, j: nat, cfg: Config, now: int)
    requires Inv(s) && s.running && j < s.remaining
    ensures Ticks(s, j, cfg, now) == s.(remaining := s.remaining - j, scheduled := Some(s.remaining - j - 1))
    decreases j
  {
    if j > 0 {
      var s1 := FirePending(s, cfg, now);
      assert s1 == s.(remaining := s.remaining - 1, scheduled := Some(s.remaining - 2));
      CountdownRun(s1, j - 1, cfg, now);
    }
  }

  /** A running phase with `d` seconds on display ends at exactly the `d`-th second: the
      callback then runs with argument 0. */
  lemma PhaseEnds(s: AppState, cfg: Config, now: int)
    requires Inv(s) && s.running
    ensures Ticks(s, s.remaining, cfg, now) == Countdown(s.(remaining := 1, scheduled := None), 0, cfg, now)
  {
    var d: nat := s.remaining;
    CountdownRun(s, d - 1, cfg, now);
    TicksSplit(s, d - 1, 1, cfg, now);
  }

  /** Start, then let the work phase run out. */
  function AfterWork(s: AppState, cfg: Config, now: int): AppState
  {
    Ticks(StartTimer(s, cfg, now), if cfg.workSeconds > 0 then cfg.workSeconds else 0, cfg, now)
  }

  /** Start, let the work phase and then the break run out. */
  function Round(s: AppState, cfg: Config, now: int): AppState
  {
    var b := AfterWork(s, cfg, now);
    Ticks(b, if b.remaining > 0 then b.remaining else 0, cfg, now)
  }

  /** One work phase and its break, from an idle timer: the break is the one the cycle
      calls for, and afterwards the timer waits in the next cycle's work phase. */
  lemma RoundLaw(s: AppState, cfg: Config, now: int)
    requires Inv(s) && !s.running && ValidConfig(cfg)
    ensures var b := AfterWork(s, cfg, now);
      b.running && b.phase == BreakFor(s.cycle) && b.remaining == PhaseSeconds(b.phase, cfg) &&
      b.cycle == s.cycle && b.cycles == s.cycles + 1 && b.lockRequests == s.lockRequests + 1 &&
      b.data == Ledger.RecordWorkSession(s.data, cfg.workSeconds, now)
    ensures var r := Round(s, cfg, now);
      Inv(r) && !r.running && r.phase == Work && r.remaining == cfg.workSeconds &&
      r.cycle == NextCycle(s.cycle) && r.cycles == s.cycles + 1 &&
      r.data == AfterWork(s, cfg, now).data
  {
    var a := StartTimer(s, cfg, now);
    StartLaw(s, cfg, now);
    PhaseEnds(a, cfg, now);
    WorkCompletion(a.(remaining := 1, scheduled := None), 0, cfg, now);
    var b := AfterWork(s, cfg, now);
    PhaseEnds(b, cfg, now);
    BreakCompletion(b.(remaining := 1, scheduled := None), 0, cfg, now);
  }

  /** From a reset, four rounds take three short breaks and then a long one, and bring the
      timer back to cycle 1 with four completed work phases and four new sessions. */
  lemma FourCycleLaw(s: AppState, cfg: Config, now: int)
    requires Inv(s) && ValidConfig(cfg)
    ensures var s0 := ResetTimer(s, cfg);
      var s1 := Round(s0, cfg, now);
      var s2 := Round(s1, cfg, now);
      var s3 := Round(s2, cfg, now);
      var s4 := Round(s3, cfg, now);
      AfterWork(s0, cfg, now).phase == ShortBreak &&
      AfterWork(s1, cfg, now).phase == ShortBreak &&
      AfterWork(s2, cfg, now).phase == ShortBreak &&
      AfterWork(s3, cfg, now).phase == LongBreak &&
      s4.cycle == 1 && s4.cycles == 4 && !s4.running && s4.phase == Work &&
      |s4.data.sessions| == |s.data.sessions| + 4
  {
    var s0 := ResetTimer(s, cfg);
    ResetLaw(s, cfg);
    StepKeepsInv(s, Event(Reset, cfg, now));
    RoundLaw(s0, cfg, now);
    var s1 := Round(s0, cfg, now);
    RoundLaw(s1, cfg, now);
    var s2 := Round(s1, cfg, now);
    RoundLaw(s2, cfg, now);
    var s3 := Round(s2, cfg, now);
    RoundLaw(s3, cfg, now);
  }

  /** With 25, 5 and 20 minutes, starting a fresh timer and letting 1500 seconds pass
      ends the work phase: a 300-second short break runs, 25 coins are credited and the
      cycle is still 1. */
  lemma DefaultScenario(now: int)
    ensures var cfg := Config(1500, 300, 1200, Some(25));
      var r := Ticks(StartTimer(Initial(None), cfg, now), 1500, cfg, now);
      r.running && r.phase == ShortBreak && r.remaining == 300 &&
      r.data.coins == 25.0 && |r.data.sessions| == 1 &&
      r.cycles == 1 && r.cycle == 1 && r.lockRequests == 1
  {
    var cfg := Config(1500, 300, 1200, Some(25));
    var s := Initial(None);
    RoundLaw(s, cfg, now);
    WorkCompletion(StartTimer(s, cfg, now).(remaining := 1, scheduled := None), 0, cfg, now);
  }
}
