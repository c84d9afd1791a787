/**
 * pages/profile/profile.js: the level shown for the total practice hours,
 * the statistics read from storage with their all-zero default, and the
 * state a login leaves in the global data and on the page.
 */
module ProfilePage {
  import opened Wrappers
  import Steps
  import AppGlobals

  /** The `userStats` storage entry; a field is None when the stored object lacks it. */
  datatype UserStats = UserStats(totalHours: Option<real>, totalDays: Option<real>,
                                 avgScore: Option<real>, bestScore: Option<real>)

  /** The default `loadUserData` uses when nothing is stored. */
  const ZeroStats := UserStats(Some(0.0), Some(0.0), Some(0.0), Some(0.0))

  /** The if-chain on `stats.totalHours`. */
  function Level(totalHours: real): string {
    if totalHours >= 500.0 then "大师"
    else if totalHours >= 200.0 then "高级"
    else if totalHours >= 50.0 then "中级"
    else if totalHours >= 10.0 then "入门"
    else "初学者"
  }

  /** The level for the stored statistics: an absent `totalHours` compares false and keeps 初学者. */
  function LevelText(stats: UserStats): string {
    match stats.totalHours
    case None => "初学者"
    case Some(h) => Level(h)
  }

  /** The hours at which the level rises, and the levels from lowest to highest. */
  const LevelStarts: seq<real> := [10.0, 50.0, 200.0, 500.0]
  const Levels: seq<string> := ["初学者", "入门", "中级", "高级", "大师"]

  /**
   * Each level is given on exactly its range of hours, and the if-chain
   * agrees with the reference step function: the level is the one whose
   * threshold the hours have reached, so a boundary value (10, 50, 200, 500)
   * gets the higher level.
   */
  lemma LevelBuckets(h: real)
    ensures Level(h) == "大师" <==> 500.0 <= h
    ensures Level(h) == "高级" <==> 200.0 <= h < 500.0
    ensures Level(h) == "中级" <==> 50.0 <= h < 200.0
    ensures Level(h) == "入门" <==> 10.0 <= h < 50.0
    ensures Level(h) == "初学者" <==> h < 10.0
    ensures Level(h) == Levels[Steps.Reached(LevelStarts, h)]
  {
    var t := LevelStarts;
    assert t[1..] == [50.0, 200.0, 500.0] && t[1..][1..] == [200.0, 500.0] && t[1..][1..][1..] == [500.0];
    assert [500.0][1..] == [];
    var n3 := Steps.Reached([500.0], h);
    assert n3 == if 500.0 <= h then 1 else 0;
    var n2 := Steps.Reached([200.0, 500.0], h);
    assert n2 == (if 200.0 <= h then 1 else 0) + n3;
    var n1 := Steps.Reached([50.0, 200.0, 500.0], h);
    assert n1 == (if 50.0 <= h then 1 else 0) + n2;
    assert Steps.Reached(t, h) == (if 10.0 <= h then 1 else 0) + n1;
  }

  /** More practice never shows a lower level. */
  lemma LevelMonotone(a: real, b: real)
    requires a <= b
    ensures Steps.Reached(LevelStarts, a) <= Steps.Reached(LevelStarts, b)
    ensures Level(a) == Levels[Steps.Reached(LevelStarts, a)]
    ensures Level(b) == Levels[Steps.Reached(LevelStarts, b)]
  {
    Steps.ReachedMonotone(LevelStarts, a, b);
    LevelBuckets(a);
    LevelBuckets(b);
  }

  /** With nothing stored the page shows all-zero statistics and the lowest level. */
  lemma MissingStatsDefault(stored: Option<UserStats>)
    requires stored.None?
    ensures stored.GetOr(ZeroStats) == ZeroStats
    ensures LevelText(stored.GetOr(ZeroStats)) == "初学者" == Levels[0]
  {
  }

  class ProfilePageData {
    var isLoggedIn: bool
    var userInfo: AppGlobals.UserInfo
    var levelText: string
    var stats: UserStats

    /** The page's initial `data`. */
    constructor ()
      ensures !isLoggedIn && userInfo == AppGlobals.EmptyUserInfo && levelText == "初学者" && stats == ZeroStats
    {
      isLoggedIn := false;
      userInfo := AppGlobals.EmptyUserInfo;
      levelText := "初学者";
      stats := ZeroStats;
    }

    /** `loadUserData` (run by `onShow`), given the `userStats` storage entry. */
    method LoadUserData(app: AppGlobals.GlobalData, stored: Option<UserStats>)
      modifies this
      ensures isLoggedIn == app.isLoggedIn
      ensures userInfo == app.userInfo.GetOr(AppGlobals.EmptyUserInfo)
      ensures stats == stored.GetOr(ZeroStats)
      ensures levelText == LevelText(stats)
    {
      var s := stored.GetOr(ZeroStats);
      var level := "初学者";
      if s.totalHours.Some? {
        var h := s.totalHours.value;
        if h >= 500.0 {
          level := "大师";
        } else if h >= 200.0 {
          level := "高级";
        } else if h >= 50.0 {
          level := "中级";
        } else if h >= 10.0 {
          level := "入门";
        }
      }
      isLoggedIn, userInfo, stats, levelText := app.isLoggedIn, app.userInfo.GetOr(AppGlobals.EmptyUserInfo), s, level;
    }

    /**
     * `handleLogin`, given the outcome of `wx.getUserProfile` (None: the
     * `fail` callback).  Success logs the user in, in the global data and on
     * the page alike, and stores the profile; failure changes nothing.
     */
    method HandleLogin(app: AppGlobals.GlobalData, outcome: Option<AppGlobals.UserInfo>)
      modifies this, app
      ensures outcome.Some? ==>
        && app.userInfo == Some(outcome.value) && app.isLoggedIn && app.storedUserInfo == Some(outcome.value)
        && isLoggedIn && userInfo == outcome.value
        && app.userInfo == Some(userInfo)
      ensures outcome.None? ==>
        && app.userInfo == old(app.userInfo) && app.isLoggedIn == old(app.isLoggedIn)
        && app.storedUserInfo == old(app.storedUserInfo)
        && isLoggedIn == old(isLoggedIn) && userInfo == old(userInfo)
      ensures levelText == old(levelText) && stats == old(stats)
    {
      if outcome.Some? {
        var info := outcome.value;
        app.userInfo := Some(info);
        app.isLoggedIn := true;
        app.storedUserInfo := Some(info);
        isLoggedIn := true;
        userInfo := info;
      }
    }
  }
}
