/**
 * Step functions over ascending thresholds, the independent reference for
 * the if-chains that bucket an hour into a greeting and practice hours into
 * a level: the bucket of `x` is the number of thresholds it has reached.
 */
module Steps {

  predicate Ascending(thresholds: seq<real>) {
    forall i, j :: 0 <= i < j < |thresholds| ==> thresholds[i] < thresholds[j]
  }

  /** How many of the thresholds `x` has reached (`x >= t`). */
  function Reached(thresholds: seq<real>, x: real): (n: nat)
    ensures n <= |thresholds|
  {
    if thresholds == [] then 0
    else (if thresholds[0] <= x then 1 else 0) + Reached(thresholds[1..], x)
  }

  /** A larger value never falls into a lower bucket. */
  lemma {:induction false} ReachedMonotone(thresholds: seq<real>, x: real, y: real)
    requires x <= y
    ensures Reached(thresholds, x) <= Reached(thresholds, y)
  {
    if thresholds != [] {
      ReachedMonotone(thresholds[1..], x, y);
    }
  }

  /**
   * Over ascending thresholds the bucket is the half-open interval that
   * holds `x`: every threshold below the bucket is reached and none above;
   * a value equal to a threshold belongs to the bucket that threshold opens.
   */
  lemma {:induction false} ReachedInterval(thresholds: seq<real>, x: real)
    requires Ascending(thresholds)
    ensures var n := Reached(thresholds, x);
      && (forall i :: 0 <= i < n ==> thresholds[i] <= x)
      && (forall i :: n <= i < |thresholds| ==> x < thresholds[i])
  {
    if thresholds != [] {
      var rest := thresholds[1..];
      assert Ascending(rest) by {
        forall i, j | 0 <= i < j < |rest| ensures rest[i] < rest[j] {
          assert rest[i] == thresholds[i + 1] && rest[j] == thresholds[j + 1];
        }
      }
      ReachedInterval(rest, x);
      var m := Reached(rest, x);
      if thresholds[0] > x && |rest| > 0 {
        assert rest[0] == thresholds[1];
      }
      forall i | 0 < i < |thresholds| ensures thresholds[i] == rest[i - 1] {
      }
    }
  }
}
