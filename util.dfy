/**
 * The helpers of utils/util.js: `formatTime`, `formatDate`, `getScoreLevel`
 * and `throttle`, plus the decimal rendering (`toString().padStart(2, '0')`)
 * that the pages repeat inline.
 */
module Util {
  import opened Wrappers

  // ----- decimal digits -------------------------------------------------

  predicate IsDigit(c: char) {
    '0' <= c <= '9'
  }

  predicate AllDigits(s: string) {
    forall i :: 0 <= i < |s| ==> IsDigit(s[i])
  }

  function DigitChar(d: nat): (c: char)
    requires d < 10
    ensures IsDigit(c)
  {
    (('0' as int) + d) as char
  }

  function DigitValue(c: char): (d: nat)
    requires IsDigit(c)
    ensures d < 10
  {
    (c as int) - ('0' as int)
  }

  /** `n.toString()` for a non-negative integer: its decimal digits, no leading zero. */
  function NatToString(n: nat): (s: string)
    ensures 1 <= |s|
    ensures AllDigits(s)
    decreases n
  {
    if n < 10 then [DigitChar(n)] else NatToString(n / 10) + [DigitChar(n % 10)]
  }

  /** The value of a string of decimal digits (the inverse of NatToString). */
  function ParseNat(s: string): nat
    requires AllDigits(s)
  {
    if s == [] then 0 else ParseNat(s[..|s| - 1]) * 10 + DigitValue(s[|s| - 1])
  }

  lemma {:induction false} ParseNatToString(n: nat)
    ensures ParseNat(NatToString(n)) == n
    decreases n
  {
    var s := NatToString(n);
    if n >= 10 {
      ParseNatToString(n / 10);
      assert s[..|s| - 1] == NatToString(n / 10);
    }
  }

  /** NatToString gives one digit below 10, two below 100 and more from 100 on. */
  lemma {:induction false} NatToStringLength(n: nat)
    ensures n < 10 ==> |NatToString(n)| == 1
    ensures 10 <= n < 100 ==> |NatToString(n)| == 2
    ensures 100 <= n ==> |NatToString(n)| >= 3
    decreases n
  {
    if n >= 10 {
      NatToStringLength(n / 10);
    }
  }

  /** `n.toString().padStart(2, '0')`. */
  function PadTwo(n: nat): (s: string)
    ensures AllDigits(s)
    ensures ParseNat(s) == n
    ensures n < 100 ==> |s| == 2
    ensures 100 <= n ==> |s| >= 3
  {
    var d := NatToString(n);
    ParseNatToString(n);
    NatToStringLength(n);
    if |d| < 2 then
      assert ("0" + d)[..1] == "0";
      "0" + d
    else
      d
  }

  // ----- formatTime ---------------------------------------------------

  /** `formatTime(seconds)`: whole minutes and remaining seconds, each padded to two digits. */
  function FormatTime(seconds: nat): string {
    PadTwo(seconds / 60) + ":" + PadTwo(seconds % 60)
  }

  /**
   * Reads a clock display back: at least one digit, a colon, then exactly
   * two digits of seconds.  Used only to state what FormatTime promises.
   */
  function ParseClock(s: string): Option<(nat, nat)> {
    if |s| >= 4 && s[|s| - 3] == ':' && AllDigits(s[..|s| - 3]) && AllDigits(s[|s| - 2..]) then
      Some((ParseNat(s[..|s| - 3]), ParseNat(s[|s| - 2..])))
    else
      None
  }

  /** Below 100 minutes the display is exactly `MM:SS`. */
  lemma FormatTimeShape(seconds: nat)
    requires seconds < 6000
    ensures |FormatTime(seconds)| == 5
    ensures FormatTime(seconds)[2] == ':'
    ensures forall i :: 0 <= i < 5 && i != 2 ==> IsDigit(FormatTime(seconds)[i])
  {
    var m, s := PadTwo(seconds / 60), PadTwo(seconds % 60);
    assert FormatTime(seconds) == m + ":" + s;
  }

  /**
   * The display round-trips: reading it back gives minutes and seconds with
   * seconds below 60 and 60 * minutes + seconds equal to the input.  The
   * minutes field is never cut to two digits, so from 100 minutes on the
   * display is longer than five characters.
   */
  lemma FormatTimeRoundTrip(seconds: nat)
    ensures ParseClock(FormatTime(seconds)) == Some((seconds / 60, seconds % 60))
    ensures seconds % 60 < 60 && 60 * (seconds / 60) + seconds % 60 == seconds
    ensures seconds >= 6000 <==> |FormatTime(seconds)| > 5
  {
    var m, s := PadTwo(seconds / 60), PadTwo(seconds % 60);
    var t := FormatTime(seconds);
    assert t == m + ":" + s;
    assert |s| == 2;
    assert t[..|t| - 3] == m;
    assert t[|t| - 2..] == s;
    assert t[|t| - 3] == ':';
  }

  // ----- getScoreLevel --------------------------------------------------

  /** The four levels `getScoreLevel` returns, with their `text` and `class`. */
  datatype ScoreLevel = Excellent | Good | Fair | Poor {
    function Text(): string {
      match this
      case Excellent => "优秀"
      case Good => "良好"
      case Fair => "及格"
      case Poor => "需加强"
    }

    function Class(): string {
      match this
      case Excellent => "excellent"
      case Good => "good"
      case Fair => "fair"
      case Poor => "poor"
    }

    /** Position in the order Poor < Fair < Good < Excellent. */
    function Rank(): nat {
      match this
      case Excellent => 3
      case Good => 2
      case Fair => 1
      case Poor => 0
    }
  }

  /** `getScoreLevel(score)`: thresholds 90, 75 and 60, each the lower bound of its level. */
  function GetScoreLevel(score: int): (l: ScoreLevel)
    ensures l == Excellent <==> score >= 90
    ensures l == Good <==> 75 <= score < 90
    ensures l == Fair <==> 60 <= score < 75
    ensures l == Poor <==> score < 60
  {
    if score >= 90 then Excellent
    else if score >= 75 then Good
    else if score >= 60 then Fair
    else Poor
  }

  /** A higher score never gets a lower level. */
  lemma GetScoreLevelMonotone(a: int, b: int)
    requires a <= b
    ensures GetScoreLevel(a).Rank() <= GetScoreLevel(b).Rank()
  {
  }

  // ----- formatDate ---------------------------------------------------

  /**
   * The fields `formatDate` reads from its `Date`: the full year, the
   * zero-based month of `getMonth()`, the day of the month, hours, minutes
   * and seconds.
   */
  datatype DateFields = DateFields(year: nat, month: nat, day: nat, hours: nat, minutes: nat, seconds: nat)

  const DefaultDateFormat: string := "YYYY-MM-DD HH:mm"

  /** The token table, in the order the loop of `formatDate` visits it. */
  function DateTokens(d: DateFields): seq<(string, string)> {
    [("YYYY", NatToString(d.year)),
     ("MM", PadTwo(d.month + 1)),
     ("DD", PadTwo(d.day)),
     ("HH", PadTwo(d.hours)),
     ("mm", PadTwo(d.minutes)),
     ("ss", PadTwo(d.seconds))]
  }

  predicate OccursAt(s: string, key: string, i: int) {
    0 <= i && i + |key| <= |s| && s[i..i + |key|] == key
  }

  /** `s.indexOf(key, from)`: the first occurrence at or after `from`, or -1. */
  function IndexOf(s: string, key: string, from: nat): (r: int)
    ensures r == -1 || (from <= r && OccursAt(s, key, r))
    ensures r == -1 ==> forall i :: from <= i ==> !OccursAt(s, key, i)
    ensures r >= 0 ==> forall i :: from <= i < r ==> !OccursAt(s, key, i)
    decreases |s| - from
  {
    if from + |key| > |s| then -1
    else if s[from..from + |key|] == key then from
    else IndexOf(s, key, from + 1)
  }

  /** `s.replace(key, value)` with a string pattern: only the first occurrence is replaced. */
  function ReplaceFirst(s: string, key: string, value: string): string {
    var i := IndexOf(s, key, 0);
    if i < 0 then s else s[..i] + value + s[i + |key|..]
  }

  /** The tokens applied one after another, in table order. */
  function SubstituteInOrder(s: string, tokens: seq<(string, string)>): string
    decreases |tokens|
  {
    if tokens == [] then s
    else SubstituteInOrder(ReplaceFirst(s, tokens[0].0, tokens[0].1), tokens[1..])
  }

  /** `formatDate(date, format)`: the loop over the token table, reassigning `result`. */
  method FormatDate(d: DateFields, format: string) returns (result: string)
    ensures result == SubstituteInOrder(format, DateTokens(d))
  {
    var tokens := DateTokens(d);
    result := format;
    var i := 0;
    while i < |tokens|
      invariant 0 <= i <= |tokens|
      invariant SubstituteInOrder(result, tokens[i..]) == SubstituteInOrder(format, tokens)
    {
      assert tokens[i..][1..] == tokens[i + 1..];
      result := ReplaceFirst(result, tokens[i].0, tokens[i].1);
      i := i + 1;
    }
  }

  /** A string whose characters never start the key is left alone. */
  lemma ReplaceFirstAbsent(s: string, key: string, value: string)
    requires key != []
    requires forall i :: 0 <= i < |s| ==> s[i] != key[0]
    ensures ReplaceFirst(s, key, value) == s
  {
    forall j | 0 <= j < |s| ensures !OccursAt(s, key, j) {
      OccursAtStartsWithKey(s, key, j);
    }
  }

  lemma OccursAtStartsWithKey(s: string, key: string, j: int)
    requires key != [] && 0 <= j < |s|
    ensures OccursAt(s, key, j) ==> s[j] == key[0]
  {
    if OccursAt(s, key, j) {
      assert s[j..j + |key|][0] == s[j];
    }
  }

  /** When no character before the key could start it, the key itself is what gets replaced. */
  lemma ReplaceFirstAfterPrefix(p: string, key: string, q: string, value: string)
    requires key != []
    requires forall i :: 0 <= i < |p| ==> p[i] != key[0]
    ensures ReplaceFirst(p + key + q, key, value) == p + value + q
  {
    var s := p + key + q;
    assert OccursAt(s, key, |p|) by {
      assert s[|p|..|p| + |key|] == key;
    }
    forall j | 0 <= j < |p| ensures !OccursAt(s, key, j) {
      OccursAtStartsWithKey(s, key, j);
      assert s[j] == p[j];
    }
    var i := IndexOf(s, key, 0);
    assert i == |p|;
    assert s[..i] == p;
    assert s[i + |key|..] == q;
  }

  /** The letters that start a date token. */
  const TokenStarts: set<char> := {'Y', 'M', 'D', 'H', 'm', 's'}

  /** No character of a string is a letter that starts a date token. */
  predicate NoTokenStart(s: string) {
    forall i :: 0 <= i < |s| ==> s[i] !in TokenStarts
  }

  lemma DigitsHaveNoTokenStart(s: string)
    requires AllDigits(s)
    ensures NoTokenStart(s)
  {
    forall i | 0 <= i < |s| ensures s[i] !in TokenStarts {
      assert IsDigit(s[i]);
    }
  }

  lemma NoTokenStartConcat(a: string, b: string)
    requires NoTokenStart(a) && NoTokenStart(b)
    ensures NoTokenStart(a + b)
  {
    forall i | 0 <= i < |a + b| ensures (a + b)[i] !in TokenStarts {
      if i < |a| { assert (a + b)[i] == a[i]; } else { assert (a + b)[i] == b[i - |a|]; }
    }
  }

  /** One turn of the formatDate loop where the token's first occurrence is known. */
  lemma TokenReplaced(p: string, key: string, q: string, value: string, rest: seq<(string, string)>)
    requires key != [] && key[0] in TokenStarts && NoTokenStart(p)
    ensures SubstituteInOrder(p + key + q, [(key, value)] + rest) == SubstituteInOrder(p + value + q, rest)
  {
    assert ([(key, value)] + rest)[1..] == rest;
    ReplaceFirstAfterPrefix(p, key, q, value);
  }

  /** One turn of the formatDate loop for a token that no longer occurs. */
  lemma TokenAbsent(s: string, key: string, value: string, rest: seq<(string, string)>)
    requires key != [] && forall i :: 0 <= i < |s| ==> s[i] != key[0]
    ensures SubstituteInOrder(s, [(key, value)] + rest) == SubstituteInOrder(s, rest)
  {
    assert ([(key, value)] + rest)[1..] == rest;
    ReplaceFirstAbsent(s, key, value);
  }

  /** The year turn of the loop on the default format. */
  lemma YearTurn(f: string, y: string, rest: seq<(string, string)>)
    requires f == DefaultDateFormat
    ensures SubstituteInOrder(f, [("YYYY", y)] + rest) ==
      SubstituteInOrder((y + "-") + "MM" + "-DD HH:mm", rest)
  {
    DefaultFormatStartsWithYear();
    KeyFirst(f, "YYYY", "-MM-DD HH:mm", y, rest);
    AfterYear(y);
  }

  lemma DefaultFormatStartsWithYear()
    ensures DefaultDateFormat == "YYYY" + "-MM-DD HH:mm"
  {
  }

  lemma AfterYear(y: string)
    ensures y + "-MM-DD HH:mm" == (y + "-") + "MM" + "-DD HH:mm"
  {
  }

  /** A format starting with the key: the first turn puts the value in its place. */
  lemma KeyFirst(f: string, key: string, q: string, value: string, rest: seq<(string, string)>)
    requires key != [] && key[0] in TokenStarts && f == key + q
    ensures SubstituteInOrder(f, [(key, value)] + rest) == SubstituteInOrder(value + q, rest)
  {
    assert [] + key == key && [] + value == value;
    TokenReplaced([], key, q, value, rest);
  }

  /** The month turn of the loop on the default format. */
  lemma MonthTurn(p: string, mo: string, rest: seq<(string, string)>)
    requires NoTokenStart(p)
    ensures SubstituteInOrder(p + "MM" + "-DD HH:mm", [("MM", mo)] + rest) ==
      SubstituteInOrder((p + mo + "-") + "DD" + " HH:mm", rest)
  {
    TokenReplaced(p, "MM", "-DD HH:mm", mo, rest);
    assert p + mo + "-DD HH:mm" == (p + mo + "-") + "DD" + " HH:mm";
  }

  /** The day turn of the loop on the default format. */
  lemma DayTurn(p: string, dd: string, rest: seq<(string, string)>)
    requires NoTokenStart(p)
    ensures SubstituteInOrder(p + "DD" + " HH:mm", [("DD", dd)] + rest) ==
      SubstituteInOrder((p + dd + " ") + "HH:mm", rest)
  {
    TokenReplaced(p, "DD", " HH:mm", dd, rest);
    assert p + dd + " HH:mm" == (p + dd + " ") + "HH:mm";
  }

  /** The loop's first three turns on the default format: year, month, day. */
  lemma DefaultFormatHead(f: string, y: string, mo: string, dd: string, rest: seq<(string, string)>)
    requires f == DefaultDateFormat
    requires NoTokenStart(y) && NoTokenStart(mo) && NoTokenStart(dd)
    ensures SubstituteInOrder(f, [("YYYY", y), ("MM", mo), ("DD", dd)] + rest) ==
      SubstituteInOrder(((y + "-") + mo + "-") + dd + " " + "HH:mm", rest)
  {
    var p1 := y + "-";
    var p2 := p1 + mo + "-";
    assert NoTokenStart(p1) by { NoTokenStartConcat(y, "-"); }
    assert NoTokenStart(p2) by { NoTokenStartConcat(p1, mo); NoTokenStartConcat(p1 + mo, "-"); }
    var r2 := [("DD", dd)] + rest;
    var r1 := [("MM", mo)] + r2;
    assert [("YYYY", y), ("MM", mo), ("DD", dd)] + rest == [("YYYY", y)] + r1;
    YearTurn(f, y, r1);
    MonthTurn(p1, mo, r2);
    DayTurn(p2, dd, rest);
  }

  /** The hour turn of the loop on the default format. */
  lemma HourTurn(p: string, hh: string, rest: seq<(string, string)>)
    requires NoTokenStart(p)
    ensures SubstituteInOrder(p + "HH:mm", [("HH", hh)] + rest) == SubstituteInOrder((p + hh + ":") + "mm" + "", rest)
  {
    assert p + "HH:mm" == p + "HH" + ":mm";
    TokenReplaced(p, "HH", ":mm", hh, rest);
    assert p + hh + ":mm" == (p + hh + ":") + "mm" + "";
  }

  /** The minute turn of the loop on the default format. */
  lemma MinuteTurn(p: string, mi: string, rest: seq<(string, string)>)
    requires NoTokenStart(p)
    ensures SubstituteInOrder(p + "mm" + "", [("mm", mi)] + rest) == SubstituteInOrder(p + mi + "", rest)
  {
    TokenReplaced(p, "mm", "", mi, rest);
  }

  /** The loop's last three turns on the default format: hour, minute, and the absent seconds. */
  lemma DefaultFormatTail(p: string, hh: string, mi: string, ss: string)
    requires NoTokenStart(p) && NoTokenStart(hh) && NoTokenStart(mi)
    ensures SubstituteInOrder(p + "HH:mm", [("HH", hh), ("mm", mi), ("ss", ss)]) == p + hh + ":" + mi
  {
    var p4 := p + hh + ":";
    var s5 := p4 + mi;
    assert NoTokenStart(p4) by { NoTokenStartConcat(p, hh); NoTokenStartConcat(p + hh, ":"); }
    assert NoTokenStart(s5) by { NoTokenStartConcat(p4, mi); }
    assert [("HH", hh), ("mm", mi), ("ss", ss)] == [("HH", hh)] + ([("mm", mi)] + [("ss", ss)]);
    HourTurn(p, hh, [("mm", mi)] + [("ss", ss)]);
    MinuteTurn(p4, mi, [("ss", ss)]);
    assert p4 + mi + "" == s5;
    assert [("ss", ss)] == [("ss", ss)] + [];
    TokenAbsent(s5, "ss", ss, []);
  }

  /**
   * With the default format every token is replaced by its field:
   * `YYYY-MM-DD HH:mm` becomes the year, then month (one-based), day, hour
   * and minute, each padded to two digits.
   */
  lemma FormatDateDefault(d: DateFields)
    ensures SubstituteInOrder(DefaultDateFormat, DateTokens(d)) ==
      NatToString(d.year) + "-" + PadTwo(d.month + 1) + "-" + PadTwo(d.day) + " " +
      PadTwo(d.hours) + ":" + PadTwo(d.minutes)
  {
    var t := DateTokens(d);
    var y, mo, dd, hh, mi, ss := t[0].1, t[1].1, t[2].1, t[3].1, t[4].1, t[5].1;
    DigitsHaveNoTokenStart(y);
    DigitsHaveNoTokenStart(mo);
    DigitsHaveNoTokenStart(dd);
    DigitsHaveNoTokenStart(hh);
    DigitsHaveNoTokenStart(mi);
    assert t == [("YYYY", y), ("MM", mo), ("DD", dd)] + [("HH", hh), ("mm", mi), ("ss", ss)];
    DefaultFormatTurns(DefaultDateFormat, y, mo, dd, hh, mi, ss);
  }

  /** All six turns of the loop on the default format, for field texts that hold no token letter. */
  lemma DefaultFormatTurns(f: string, y: string, mo: string, dd: string, hh: string, mi: string, ss: string)
    requires f == DefaultDateFormat
    requires NoTokenStart(y) && NoTokenStart(mo) && NoTokenStart(dd) && NoTokenStart(hh) && NoTokenStart(mi)
    ensures SubstituteInOrder(f, [("YYYY", y), ("MM", mo), ("DD", dd)] + [("HH", hh), ("mm", mi), ("ss", ss)]) ==
      y + "-" + mo + "-" + dd + " " + hh + ":" + mi
  {
    DatePartNoTokenStart(y, mo, dd);
    DefaultFormatHead(f, y, mo, dd, [("HH", hh), ("mm", mi), ("ss", ss)]);
    DefaultFormatTail(y + "-" + mo + "-" + dd + " ", hh, mi, ss);
  }

  /** The date part the first three turns produce holds no token letter. */
  lemma DatePartNoTokenStart(y: string, mo: string, dd: string)
    requires NoTokenStart(y) && NoTokenStart(mo) && NoTokenStart(dd)
    ensures NoTokenStart(y + "-" + mo + "-" + dd + " ")
  {
    NoTokenStartConcat(y, "-");
    NoTokenStartConcat(y + "-", mo);
    NoTokenStartConcat(y + "-" + mo, "-");
    NoTokenStartConcat(y + "-" + mo + "-", dd);
    NoTokenStartConcat(y + "-" + mo + "-" + dd, " ");
  }

  /** Turns of the loop for tokens none of which can start anywhere in `s` leave `s` alone. */
  lemma {:induction false} TokensAbsent(s: string, tokens: seq<(string, string)>)
    requires forall k :: 0 <= k < |tokens| ==> tokens[k].0 != [] && forall i :: 0 <= i < |s| ==> s[i] != tokens[k].0[0]
    ensures SubstituteInOrder(s, tokens) == s
    decreases |tokens|
  {
    if tokens != [] {
      assert tokens == [(tokens[0].0, tokens[0].1)] + tokens[1..];
      TokenAbsent(s, tokens[0].0, tokens[0].1, tokens[1..]);
      TokensAbsent(s, tokens[1..]);
    }
  }

  /** The loop on `MM/MM`: the first `MM` is the month, the second stays. */
  lemma MonthTwice(f: string, t: seq<(string, string)>, mo: string)
    requires f == "MM/MM" && |t| == 6 && AllDigits(mo)
    requires t[0].0 == "YYYY" && t[1] == ("MM", mo) && t[2].0 == "DD" && t[3].0 == "HH" && t[4].0 == "mm" && t[5].0 == "ss"
    ensures SubstituteInOrder(f, t) == mo + "/MM"
  {
    var s := mo + "/MM";
    DigitsHaveNoTokenStart(mo);
    assert forall i :: 0 <= i < |s| ==> s[i] !in {'Y', 'D', 'H', 'm', 's'};
    calc {
      SubstituteInOrder(f, t);
    == { assert t == [("YYYY", t[0].1)] + t[1..];
         TokenAbsent(f, "YYYY", t[0].1, t[1..]); }
      SubstituteInOrder(f, t[1..]);
    == { assert f == [] + "MM" + "/MM" && t[1..] == [("MM", mo)] + t[2..];
         TokenReplaced([], "MM", "/MM", mo, t[2..]);
         assert [] + mo + "/MM" == s; }
      SubstituteInOrder(s, t[2..]);
    == { TokensAbsent(s, t[2..]); }
      s;
    }
  }

  /** Only the first occurrence of a token is replaced: `MM/MM` keeps its second `MM`. */
  lemma FormatDateFirstOccurrenceOnly(d: DateFields)
    ensures SubstituteInOrder("MM/MM", DateTokens(d)) == PadTwo(d.month + 1) + "/MM"
  {
    MonthTwice("MM/MM", DateTokens(d), PadTwo(d.month + 1));
  }

  // ----- throttle -----------------------------------------------------

  /** The default `interval` of `throttle`. */
  const DefaultThrottleInterval: int := 300

  /**
   * The closure `throttle(fn, interval)` returns: its one piece of state is
   * `lastTime`.  The clock (`Date.now()`) is an argument of each call, and
   * the ghost `runs` records the times at which `fn` was run.
   */
  class Throttled {
    const interval: int
    var lastTime: int
    ghost var runs: seq<int>

    /** `lastTime` is the time of the last run (0 before any), and runs are `interval` apart. */
    ghost predicate Valid()
      reads this
    {
      && lastTime == (if runs == [] then 0 else runs[|runs| - 1])
      && (runs != [] ==> runs[0] >= interval)
      && forall k :: 0 < k < |runs| ==> runs[k] - runs[k - 1] >= interval
    }

    constructor (interval: int := DefaultThrottleInterval)
      ensures Valid()
      ensures this.interval == interval && lastTime == 0 && runs == []
    {
      this.interval := interval;
      lastTime := 0;
      runs := [];
    }

    /** One call of the throttled function at time `now`; `ran` says whether `fn` was run. */
    method Call(now: int) returns (ran: bool)
      requires Valid()
      modifies this
      ensures Valid()
      ensures ran <==> now - old(lastTime) >= interval
      ensures lastTime == if ran then now else old(lastTime)
      ensures runs == if ran then old(runs) + [now] else old(runs)
    {
      ran := false;
      if now - lastTime >= interval {
        lastTime := now;
        ran := true;
        runs := runs + [now];
      }
    }
  }
}
