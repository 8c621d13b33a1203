/**
 Feedback submission across all bookings: a successful submission stores the
 feedback on its booking and recomputes the assigned servicer's rating from
 every feedback that servicer has received.
 */
module Settlement {
  import opened Models
  import opened Lifecycle
  import opened Rating

  /** All bookings, addressed by position, and the servicers' ratings in
      tenths. A servicer with no stored rating has the default 4.5. */
  datatype Store = Store(bookings: seq<Booking>, ratings: map<nat, int>)

  datatype Settled = Settled(outcome: Outcome, store: Store)

  function RatingOf(st: Store, servicer: nat): int {
    if servicer in st.ratings then st.ratings[servicer] else DefaultRatingTenths
  }

  /** The ratings of every feedback given to `servicer`, in booking order. */
  function FeedbackRatings(bs: seq<Booking>, servicer: nat): seq<int>
    decreases |bs|
  {
    if |bs| == 0 then []
    else
      var here := if bs[0].feedback.Some? && bs[0].feedback.value.servicer == servicer
                  then [bs[0].feedback.value.rating] else [];
      here + FeedbackRatings(bs[1..], servicer)
  }

  lemma SumAppend(a: seq<int>, b: seq<int>)
    ensures Sum(a + b) == Sum(a) + Sum(b)
    decreases |a|
  {
    if |a| == 0 {
      assert a + b == b;
    } else {
      assert (a + b)[1..] == a[1..] + b;
      SumAppend(a[1..], b);
    }
  }

  /** Giving booking `i`, which had no feedback, the feedback `f` adds exactly
      f's rating to the ratings of f's servicer and leaves every other
      servicer's ratings as they were. */
  lemma {:induction false} FeedbackRatingsAfterUpdate(bs: seq<Booking>, i: nat, nb: Booking, f: Feedback, s: nat)
    requires i < |bs| && bs[i].feedback.None? && nb.feedback == Some(f)
    ensures f.servicer == s ==>
      && |FeedbackRatings(bs[i := nb], s)| == |FeedbackRatings(bs, s)| + 1
      && Sum(FeedbackRatings(bs[i := nb], s)) == Sum(FeedbackRatings(bs, s)) + f.rating
    ensures f.servicer != s ==> FeedbackRatings(bs[i := nb], s) == FeedbackRatings(bs, s)
    decreases i
  {
    var bs' := bs[i := nb];
    if i == 0 {
      assert bs'[1..] == bs[1..];
      assert FeedbackRatings(bs, s) == FeedbackRatings(bs[1..], s) by {
        assert [] + FeedbackRatings(bs[1..], s) == FeedbackRatings(bs[1..], s);
      }
      if f.servicer == s {
        SumAppend([f.rating], FeedbackRatings(bs[1..], s));
        assert Sum([f.rating]) == f.rating;
      } else {
        assert [] + FeedbackRatings(bs[1..], s) == FeedbackRatings(bs[1..], s);
      }
    } else {
      assert bs'[1..] == bs[1..][i - 1 := nb];
      FeedbackRatingsAfterUpdate(bs[1..], i - 1, nb, f, s);
      var here := if bs[0].feedback.Some? && bs[0].feedback.value.servicer == s
                  then [bs[0].feedback.value.rating] else [];
      SumAppend(here, FeedbackRatings(bs'[1..], s));
      SumAppend(here, FeedbackRatings(bs[1..], s));
    }
  }

  /** Every feedback in the store carries 1 to 5 stars. */
  predicate StarsInRange(bs: seq<Booking>) {
    forall i :: 0 <= i < |bs| && bs[i].feedback.Some? ==> 1 <= bs[i].feedback.value.rating <= 5
  }

  lemma {:induction false} FeedbackRatingsAreStars(bs: seq<Booking>, s: nat)
    requires StarsInRange(bs)
    ensures AllStars(FeedbackRatings(bs, s))
    decreases |bs|
  {
    if |bs| > 0 {
      assert StarsInRange(bs[1..]) by {
        forall i | 0 <= i < |bs[1..]| && bs[1..][i].feedback.Some?
          ensures 1 <= bs[1..][i].feedback.value.rating <= 5
        {
          assert bs[1..][i] == bs[i + 1];
        }
      }
      FeedbackRatingsAreStars(bs[1..], s);
    }
  }

  /** The owner of booking `i` leaves feedback; on success the servicer's
      rating becomes the rounded mean of all its feedback ratings. */
  function SubmitFeedbackAt(st: Store, a: Actor, i: nat, rating: Option<int>, message: string): (r: Settled)
    ensures i >= |st.bookings| ==> r == Settled(NotFound, st)
    ensures i < |st.bookings| ==> r.outcome == SubmitFeedback(st.bookings[i], a, rating, message).outcome
    ensures r.outcome != Done ==> r.store == st
    ensures r.outcome == Done ==>
      && i < |st.bookings|
      && var srv := st.bookings[i].servicer;
      && r.store.bookings == st.bookings[i := SubmitFeedback(st.bookings[i], a, rating, message).booking]
      && |FeedbackRatings(r.store.bookings, srv)| > 0
      && IsRoundedMean(RatingOf(r.store, srv),
                       Sum(FeedbackRatings(r.store.bookings, srv)),
                       |FeedbackRatings(r.store.bookings, srv)|)
      && (forall s :: s != srv ==> RatingOf(r.store, s) == RatingOf(st, s))
  {
    if i >= |st.bookings| then Settled(NotFound, st)
    else
      var b := st.bookings[i];
      var step := SubmitFeedback(b, a, rating, message);
      if step.outcome != Done then Settled(step.outcome, st)
      else
        var bs' := st.bookings[i := step.booking];
        FeedbackRatingsAfterUpdate(st.bookings, i, step.booking, step.booking.feedback.value, b.servicer);
        var t := AggregateRating(FeedbackRatings(bs', b.servicer), RatingOf(st, b.servicer));
        Settled(Done, Store(bs', st.ratings[b.servicer := t]))
  }

  /** Each accepted feedback moves the servicer's rating to the rounded mean of
      the previous ratings plus the new one, and the result lies in 1.0..5.0,
      within the range the rating field can hold. */
  lemma SubmitFeedbackRating(st: Store, a: Actor, i: nat, rating: Option<int>, message: string)
    requires StarsInRange(st.bookings)
    requires SubmitFeedbackAt(st, a, i, rating, message).outcome == Done
    ensures
      var srv := st.bookings[i].servicer;
      var before := FeedbackRatings(st.bookings, srv);
      var r := SubmitFeedbackAt(st, a, i, rating, message);
      && IsRoundedMean(RatingOf(r.store, srv), Sum(before) + rating.value, |before| + 1)
      && 10 <= RatingOf(r.store, srv) <= 50
      && IsRatingTenths(RatingOf(r.store, srv))
      && StarsInRange(r.store.bookings)
  {
    var b := st.bookings[i];
    var step := SubmitFeedback(b, a, rating, message);
    var r := SubmitFeedbackAt(st, a, i, rating, message);
    FeedbackRatingsAfterUpdate(st.bookings, i, step.booking, step.booking.feedback.value, b.servicer);
    assert StarsInRange(r.store.bookings) by {
      forall j | 0 <= j < |r.store.bookings| && r.store.bookings[j].feedback.Some?
        ensures 1 <= r.store.bookings[j].feedback.value.rating <= 5
      {
        if j != i {
          assert r.store.bookings[j] == st.bookings[j];
        }
      }
    }
    FeedbackRatingsAreStars(r.store.bookings, b.servicer);
    MeanOfStarsInRange(FeedbackRatings(r.store.bookings, b.servicer));
  }

  lemma {:induction false} NoFeedbackNoRatings(bs: seq<Booking>, s: nat)
    requires forall i :: 0 <= i < |bs| ==> bs[i].feedback.None?
    ensures FeedbackRatings(bs, s) == []
    decreases |bs|
  {
    if |bs| > 0 {
      assert forall i :: 0 <= i < |bs[1..]| ==> bs[1..][i] == bs[i + 1];
      NoFeedbackNoRatings(bs[1..], s);
    }
  }

  /** A servicer with three paid bookings from three users receives 5, then 4,
      then 3 stars: its rating goes from the default 4.5 to 5.0, 4.5 and 4.0. */
  lemma ThreeFeedbacks(b1: Booking, b2: Booking, b3: Booking)
    requires b1.servicer == 7 && b2.servicer == 7 && b3.servicer == 7
    requires b1.owner == 1 && b2.owner == 2 && b3.owner == 3
    requires MayLeaveFeedback(b1) && MayLeaveFeedback(b2) && MayLeaveFeedback(b3)
    requires b1.feedback.None? && b2.feedback.None? && b3.feedback.None?
    ensures
      var st0 := Store([b1, b2, b3], map[]);
      var r1 := SubmitFeedbackAt(st0, Actor(1, UserRole), 0, Some(5), "Excellent");
      var r2 := SubmitFeedbackAt(r1.store, Actor(2, UserRole), 1, Some(4), "Good service");
      var r3 := SubmitFeedbackAt(r2.store, Actor(3, UserRole), 2, Some(3), "Average service");
      && RatingOf(st0, 7) == 45
      && r1.outcome == Done && RatingOf(r1.store, 7) == 50
      && r2.outcome == Done && RatingOf(r2.store, 7) == 45
      && r3.outcome == Done && RatingOf(r3.store, 7) == 40
  {
    var st0 := Store([b1, b2, b3], map[]);
    NoFeedbackNoRatings(st0.bookings, 7);

    var a1 := Actor(1, UserRole);
    var r1 := SubmitFeedbackAt(st0, a1, 0, Some(5), "Excellent");
    SubmitFeedbackRating(st0, a1, 0, Some(5), "Excellent");
    RoundedMeanUnique(RatingOf(r1.store, 7), 50, 5, 1);
    var n1 := SubmitFeedback(b1, a1, Some(5), "Excellent").booking;
    FeedbackRatingsAfterUpdate(st0.bookings, 0, n1, n1.feedback.value, 7);

    var a2 := Actor(2, UserRole);
    var r2 := SubmitFeedbackAt(r1.store, a2, 1, Some(4), "Good service");
    assert r1.store.bookings[1] == b2;
    SubmitFeedbackRating(r1.store, a2, 1, Some(4), "Good service");
    RoundedMeanUnique(RatingOf(r2.store, 7), 45, 9, 2);
    var n2 := SubmitFeedback(b2, a2, Some(4), "Good service").booking;
    FeedbackRatingsAfterUpdate(r1.store.bookings, 1, n2, n2.feedback.value, 7);

    var a3 := Actor(3, UserRole);
    var r3 := SubmitFeedbackAt(r2.store, a3, 2, Some(3), "Average service");
    assert r2.store.bookings[2] == b3;
    SubmitFeedbackRating(r2.store, a3, 2, Some(3), "Average service");
    RoundedMeanUnique(RatingOf(r3.store, 7), 40, 12, 3);
  }
}
