/**
 Servicer rating aggregation: the arithmetic mean of feedback ratings,
 rounded to one decimal place, computed exactly in whole tenths. Rounding
 is half-up on the exact rational mean.
 */
module Rating {

  function Sum(s: seq<int>): int
    decreases |s|
  {
    if |s| == 0 then 0 else s[0] + Sum(s[1..])
  }

  /** `t` tenths is the mean `sum / n` rounded half-up to one decimal:
      t - 1/2 <= 10 * sum / n < t + 1/2. */
  predicate IsRoundedMean(t: int, sum: int, n: int) {
    n > 0 && 2 * t * n - n <= 20 * sum < 2 * t * n + n
  }

  lemma Distribute(hi: int, lo: int, n: int)
    ensures 2 * hi * n - 2 * lo * n == 2 * ((hi - lo) * n)
  {
  }

  lemma AtLeastOnce(d: int, n: int)
    requires d >= 1 && n > 0
    ensures d * n >= n
  {
  }

  /** At most one number of tenths is the rounded mean. */
  lemma RoundedMeanUnique(t1: int, t2: int, sum: int, n: int)
    requires IsRoundedMean(t1, sum, n) && IsRoundedMean(t2, sum, n)
    ensures t1 == t2
  {
    if t1 != t2 {
      var lo, hi := if t1 < t2 then t1 else t2, if t1 < t2 then t2 else t1;
      Distribute(hi, lo, n);
      AtLeastOnce(hi - lo, n);
    }
  }

  /** The mean of a non-empty list of ratings, in tenths, rounded half-up. */
  function MeanTenths(ratings: seq<int>): (t: int)
    requires |ratings| > 0
    ensures IsRoundedMean(t, Sum(ratings), |ratings|)
  {
    var n := |ratings|;
    var num := 20 * Sum(ratings) + n;
    var t := num / (2 * n);
    assert 2 * n * t <= num < 2 * n * t + 2 * n;
    assert 2 * t * n == 2 * n * t;
    t
  }

  /** The servicer's rating after a recomputation: the rounded mean when there
      is feedback, the rating it already had when there is none. */
  function AggregateRating(ratings: seq<int>, prior: int): (t: int)
    ensures |ratings| > 0 ==> IsRoundedMean(t, Sum(ratings), |ratings|)
    ensures |ratings| == 0 ==> t == prior
  {
    if |ratings| == 0 then prior else MeanTenths(ratings)
  }

  predicate AllStars(ratings: seq<int>) {
    forall i :: 0 <= i < |ratings| ==> 1 <= ratings[i] <= 5
  }

  lemma {:induction false} SumOfStars(ratings: seq<int>)
    requires AllStars(ratings)
    ensures |ratings| <= Sum(ratings) <= 5 * |ratings|
    decreases |ratings|
  {
    if |ratings| > 0 {
      assert AllStars(ratings[1..]) by {
        forall i | 0 <= i < |ratings[1..]| ensures 1 <= ratings[1..][i] <= 5 {
          assert ratings[1..][i] == ratings[i + 1];
        }
      }
      SumOfStars(ratings[1..]);
    }
  }

  /** A sum between n and 5n rounds to a mean between 1.0 and 5.0. */
  lemma TenthsBounds(t: int, sum: int, n: int)
    requires IsRoundedMean(t, sum, n) && n <= sum <= 5 * n
    ensures 10 <= t <= 50
  {
    if t > 50 {
      AtLeastOnce(t - 50, n);
      Distribute(t, 50, n);
    }
    if t < 10 {
      AtLeastOnce(10 - t, n);
      Distribute(10, t, n);
    }
  }

  /** Ratings of 1 to 5 stars average to between 1.0 and 5.0, which fits the
      two-digit, one-decimal rating field. */
  lemma MeanOfStarsInRange(ratings: seq<int>)
    requires |ratings| > 0 && AllStars(ratings)
    ensures 10 <= MeanTenths(ratings) <= 50
  {
    SumOfStars(ratings);
    TenthsBounds(MeanTenths(ratings), Sum(ratings), |ratings|);
  }

  /** The sequences of ratings the aggregation is exercised with:
      [5] is 5.0, [5,4] is 4.5, [5,4,3] is 4.0, [5,4,4] is 4.3; and the tie
      [5,4,4,4], whose mean is 4.25, rounds up to 4.3. */
  lemma Examples()
    ensures MeanTenths([5]) == 50
    ensures MeanTenths([5, 4]) == 45
    ensures MeanTenths([5, 4, 3]) == 40
    ensures MeanTenths([5, 4, 4]) == 43
    ensures MeanTenths([5, 4, 4, 4]) == 43
  {
    assert Sum([5]) == 5;
    assert Sum([5, 4]) == 9;
    assert Sum([5, 4, 3]) == 12;
    assert Sum([5, 4, 4]) == 13;
    assert Sum([5, 4, 4, 4]) == 17;
  }
}
