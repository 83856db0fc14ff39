/** The user's ledger (`user_data` in main.py): the coin balance and the list of completed
    work sessions. The application only ever appends sessions and adds coins. */
module Ledger {
  import opened Options
  import Clock

  /** One completed work session: its calendar day, start and end time of day (minutes
      after midnight) and its length in minutes. */
  datatype Session = Session(date: int, startTime: int, endTime: int, duration: real)

  datatype UserData = UserData(coins: real, sessions: seq<Session>)

  /** How many of the most recent sessions the statistics view looks at. */
  const RecentCount: nat := 5

  /** The ledger at start-up: what was stored, or the empty ledger when nothing was. */
  function LoadUserData(stored: Option<UserData>): (d: UserData)
    ensures stored.None? ==> d.coins == 0.0 && d.sessions == []
    ensures stored.Some? ==> d == stored.value
  {
    match stored
    case None => UserData(0.0, [])
    case Some(saved) => saved
  }

  /** A duration in seconds, as minutes (true division). */
  function Minutes(seconds: int): (m: real)
    ensures m * 60.0 == seconds as real
  {
    seconds as real / 60.0
  }

  /** The ledger after a work session of `seconds` that ended at moment `now`. */
  function RecordWorkSession(d: UserData, seconds: int, now: int): (r: UserData)
    ensures |r.sessions| == |d.sessions| + 1
    ensures r.sessions[..|d.sessions|] == d.sessions
    ensures r.sessions[|d.sessions|].date == Clock.DayOf(now)
    ensures r.sessions[|d.sessions|].endTime == Clock.MinuteOfDay(now)
    ensures r.sessions[|d.sessions|].startTime == Clock.MinuteOfDay(now - seconds)
    ensures r.sessions[|d.sessions|].duration * 60.0 == seconds as real
    ensures r.coins == d.coins + r.sessions[|d.sessions|].duration
  {
    var minutes := Minutes(seconds);
    var session := Session(Clock.DayOf(now), Clock.MinuteOfDay(now - seconds), Clock.MinuteOfDay(now), minutes);
    UserData(d.coins + minutes, d.sessions + [session])
  }

  /** Total minutes over a list of sessions. */
  function SumDurations(s: seq<Session>): real
  {
    if s == [] then 0.0 else SumDurations(s[..|s| - 1]) + s[|s| - 1].duration
  }

  /** Every coin the ledger has gained since start-up came from a recorded session: the
      balance minus the total minutes recorded does not change when a session is recorded. */
  lemma CoinsFollowSessions(d: UserData, seconds: int, now: int)
    ensures var r := RecordWorkSession(d, seconds, now);
      r.coins - SumDurations(r.sessions) == d.coins - SumDurations(d.sessions)
  {
    var r := RecordWorkSession(d, seconds, now);
    assert r.sessions[..|r.sessions| - 1] == d.sessions;
  }

  /** The last `RecentCount` sessions, or all of them when there are fewer
      (`sessions[-5:]`). */
  function RecentWindow(s: seq<Session>): (w: seq<Session>)
    ensures |w| == if |s| < RecentCount then |s| else RecentCount
    ensures forall i :: 0 <= i < |w| ==> w[i] == s[|s| - |w| + i]
  {
    if |s| < RecentCount then s else s[|s| - RecentCount..]
  }

  /** Minutes of the sessions in `w` that fall on day `today`. */
  function TodaySum(w: seq<Session>, today: int): real
  {
    if w == [] then 0.0
    else TodaySum(w[..|w| - 1], today) + (if w[|w| - 1].date == today then w[|w| - 1].duration else 0.0)
  }

  /** The "total work time today" of the statistics view: the minutes of those of the last
      five sessions that fall on `today`, summed in order. */
  method TodayTotal(sessions: seq<Session>, today: int) returns (total: real)
    ensures total == TodaySum(RecentWindow(sessions), today)
  {
    var window := RecentWindow(sessions);
    total := 0.0;
    var i := 0;
    while i < |window|
      invariant 0 <= i <= |window|
      invariant total == TodaySum(window[..i], today)
    {
      var session := window[i];
      assert window[..i + 1][..i] == window[..i];
      if session.date == today {
        total := total + session.duration;
      }
      i := i + 1;
    }
    assert window[..i] == window;
  }

  lemma {:induction false} TodaySumConcat(a: seq<Session>, b: seq<Session>, today: int)
    ensures TodaySum(a + b, today) == TodaySum(a, today) + TodaySum(b, today)
    decreases |b|
  {
    if b == [] {
      assert a + b == a;
    } else {
      var b' := b[..|b| - 1];
      assert (a + b)[..|a + b| - 1] == a + b';
      TodaySumConcat(a, b', today);
    }
  }

  /** The daily total counts exactly the sessions dated `today`: it is the whole total when
      every session is today's, nothing when none is, and in between otherwise. */
  lemma {:induction false} TodaySumBounds(w: seq<Session>, today: int)
    requires forall i :: 0 <= i < |w| ==> w[i].duration >= 0.0
    ensures 0.0 <= TodaySum(w, today) <= SumDurations(w)
    ensures (forall i :: 0 <= i < |w| ==> w[i].date == today) ==> TodaySum(w, today) == SumDurations(w)
    ensures (forall i :: 0 <= i < |w| ==> w[i].date != today) ==> TodaySum(w, today) == 0.0
    decreases |w|
  {
    if w != [] {
      TodaySumBounds(w[..|w| - 1], today);
    }
  }

  /** Recording a session today moves the window by one: the daily total gains the new
      session's minutes and loses those of the session that drops out of the last five,
      if that one was today's. */
  lemma TodayTotalAfterRecord(s: seq<Session>, x: Session, today: int)
    requires x.date == today
    ensures TodaySum(RecentWindow(s + [x]), today)
         == TodaySum(RecentWindow(s), today) + x.duration
            - (if |s| >= RecentCount && s[|s| - RecentCount].date == today then s[|s| - RecentCount].duration else 0.0)
  {
    var w, w' := RecentWindow(s), RecentWindow(s + [x]);
    if |s| < RecentCount {
      assert w' == w + [x];
    } else {
      assert w == [w[0]] + w[1..];
      assert w' == w[1..] + [x];
      TodaySumConcat([w[0]], w[1..], today);
      assert [w[0]][..0] == [];
    }
    TodaySumConcat(if |s| < RecentCount then w else w[1..], [x], today);
    assert [x][..0] == [];
  }
}
