/**
 * pages/index/index.js: the greeting chosen by the hour of day, the practice
 * counters read from storage with their defaults, and the recent sessions
 * shown on the home page.  The clock and storage reads are parameters.
 */
module IndexPage {
  import opened Wrappers
  import Steps
  import AppGlobals

  /** `setGreeting`'s if-chain on `new Date().getHours()`. */
  function Greeting(hour: int): string {
    if hour < 6 then "夜深了"
    else if hour < 12 then "早上好"
    else if hour < 14 then "中午好"
    else if hour < 18 then "下午好"
    else "晚上好"
  }

  /** The hours at which the greeting changes, and the greetings in the order of the day. */
  const GreetingStarts: seq<real> := [6.0, 12.0, 14.0, 18.0]
  const Greetings: seq<string> := ["夜深了", "早上好", "中午好", "下午好", "晚上好"]

  /**
   * Each greeting is given on exactly its half-open range of hours, and the
   * if-chain agrees with the reference step function: the greeting is the
   * one whose bucket the hour has reached, so a boundary hour (6, 12, 14,
   * 18) gets the later greeting and a later hour never an earlier one.
   */
  lemma GreetingBuckets(hour: int)
    ensures Greeting(hour) == "夜深了" <==> hour < 6
    ensures Greeting(hour) == "早上好" <==> 6 <= hour < 12
    ensures Greeting(hour) == "中午好" <==> 12 <= hour < 14
    ensures Greeting(hour) == "下午好" <==> 14 <= hour < 18
    ensures Greeting(hour) == "晚上好" <==> 18 <= hour
    ensures Greeting(hour) == Greetings[Steps.Reached(GreetingStarts, hour as real)]
  {
    var h := hour as real;
    var t := GreetingStarts;
    assert t[1..] == [12.0, 14.0, 18.0] && t[1..][1..] == [14.0, 18.0] && t[1..][1..][1..] == [18.0];
    assert [18.0][1..] == [];
    var n3 := Steps.Reached([18.0], h);
    assert n3 == if 18.0 <= h then 1 else 0;
    var n2 := Steps.Reached([14.0, 18.0], h);
    assert n2 == (if 14.0 <= h then 1 else 0) + n3;
    var n1 := Steps.Reached([12.0, 14.0, 18.0], h);
    assert n1 == (if 12.0 <= h then 1 else 0) + n2;
    assert Steps.Reached(t, h) == (if 6.0 <= h then 1 else 0) + n1;
  }

  /** A later hour of the same day never gets an earlier greeting. */
  lemma GreetingMonotone(a: int, b: int)
    requires a <= b
    ensures Steps.Reached(GreetingStarts, a as real) <= Steps.Reached(GreetingStarts, b as real)
    ensures Greeting(a) == Greetings[Steps.Reached(GreetingStarts, a as real)]
    ensures Greeting(b) == Greetings[Steps.Reached(GreetingStarts, b as real)]
  {
    Steps.ReachedMonotone(GreetingStarts, a as real, b as real);
    GreetingBuckets(a);
    GreetingBuckets(b);
  }

  /** The `practiceStats` storage entry; a field is None when it is absent. */
  datatype StoredStats = StoredStats(todayMinutes: Option<int>, consecutiveDays: Option<int>, totalSessions: Option<int>)

  /** The counters `loadStats` shows. */
  datatype Counters = Counters(todayMinutes: int, consecutiveDays: int, totalSessions: int)

  /** `stats.x || 0` for a number field: an absent field (or a stored 0) shows 0. */
  function OrZero(v: Option<int>): (r: int)
    ensures v.Some? ==> r == v.value
    ensures v.None? ==> r == 0
  {
    v.GetOr(0)
  }

  /** `loadStats`: an empty storage entry reads as `{}`. */
  function LoadedCounters(stored: Option<StoredStats>): (c: Counters)
    ensures stored.None? ==> c == Counters(0, 0, 0)
    ensures stored.Some? ==> c == Counters(OrZero(stored.value.todayMinutes),
      OrZero(stored.value.consecutiveDays), OrZero(stored.value.totalSessions))
  {
    var s := stored.GetOr(StoredStats(None, None, None));
    Counters(OrZero(s.todayMinutes), OrZero(s.consecutiveDays), OrZero(s.totalSessions))
  }

  /** One entry of the `recentSessions` storage list; `goToReport` uses its id. */
  datatype Session = Session(id: string)

  const MaxRecentSessions := 5

  /** `(stored || []).slice(0, 5)`. */
  function RecentSessions(stored: Option<seq<Session>>): seq<Session> {
    var s := stored.GetOr([]);
    if |s| <= MaxRecentSessions then s else s[..MaxRecentSessions]
  }

  /** The page shows the first min(5, n) stored sessions, in stored order. */
  lemma RecentSessionsPrefix(stored: Option<seq<Session>>)
    ensures var r := RecentSessions(stored);
      var s := if stored.Some? then stored.value else [];
      && |r| == (if |s| < 5 then |s| else 5)
      && r == s[..|r|]
  {
  }

  class IndexPageData {
    var greeting: string
    var userInfo: AppGlobals.UserInfo
    var todayMinutes: int
    var consecutiveDays: int
    var totalSessions: int
    var recentSessions: seq<Session>

    /** The page's initial `data`. */
    constructor ()
      ensures greeting == "" && userInfo == AppGlobals.EmptyUserInfo && recentSessions == []
      ensures todayMinutes == 0 && consecutiveDays == 0 && totalSessions == 0
    {
      greeting := "";
      userInfo := AppGlobals.EmptyUserInfo;
      todayMinutes, consecutiveDays, totalSessions := 0, 0, 0;
      recentSessions := [];
    }

    /** `onLoad` / `setGreeting` at the given hour. */
    method SetGreeting(hour: int)
      modifies this
      ensures greeting == Greeting(hour)
      ensures userInfo == old(userInfo) && recentSessions == old(recentSessions)
      ensures todayMinutes == old(todayMinutes) && consecutiveDays == old(consecutiveDays)
      ensures totalSessions == old(totalSessions)
    {
      var g := "晚上好";
      if hour < 6 {
        g := "夜深了";
      } else if hour < 12 {
        g := "早上好";
      } else if hour < 14 {
        g := "中午好";
      } else if hour < 18 {
        g := "下午好";
      }
      greeting := g;
    }

    /** `onShow`: `loadUserInfo`, `loadStats` and `loadRecentSessions` on the given global and stored values. */
    method OnShow(app: AppGlobals.GlobalData, stats: Option<StoredStats>, sessions: Option<seq<Session>>)
      modifies this
      ensures userInfo == app.userInfo.GetOr(AppGlobals.EmptyUserInfo)
      ensures Counters(todayMinutes, consecutiveDays, totalSessions) == LoadedCounters(stats)
      ensures recentSessions == RecentSessions(sessions)
      ensures greeting == old(greeting)
    {
      userInfo := app.userInfo.GetOr(AppGlobals.EmptyUserInfo);
      var s := stats.GetOr(StoredStats(None, None, None));
      todayMinutes := OrZero(s.todayMinutes);
      consecutiveDays := OrZero(s.consecutiveDays);
      totalSessions := OrZero(s.totalSessions);
      var stored := sessions.GetOr([]);
      recentSessions := if |stored| <= MaxRecentSessions then stored else stored[..MaxRecentSessions];
    }
  }
}
