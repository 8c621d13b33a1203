/**
 What the pages derive from bookings: whether the owner sees the diagnosis
 and the approve action, the chronological progress timeline, and the
 pending-payment and work-history lists of one user.
 */
module Views {
  import opened Models
  import opened Lifecycle

  /** The owner sees the diagnosis only while it is under negotiation. */
  predicate DiagnosisVisible(b: Booking) {
    b.status == Pending && b.diagnosis.Some?
  }

  /** The approve action is offered on a visible, not yet approved diagnosis. */
  predicate ApproveOffered(b: Booking) {
    DiagnosisVisible(b) && !b.diagnosis.value.userApproved
  }

  /** What the booking page shows about the diagnosis. */
  function VisibleDiagnosis(b: Booking): (r: Option<Diagnosis>)
    ensures r.Some? <==> b.status == Pending && b.diagnosis.Some?
    ensures r.Some? ==> r == b.diagnosis
  {
    if DiagnosisVisible(b) then b.diagnosis else None
  }

  /** Offering the approve action is exactly the case in which approving succeeds
      for the owner; when the action is not offered, approving changes nothing. */
  lemma ApproveOfferedMatchesGuard(b: Booking, a: Actor)
    requires IsOwner(b, a)
    ensures ApproveOffered(b) <==> ApproveDiagnosis(b, a).outcome == Done
    ensures !ApproveOffered(b) ==> ApproveDiagnosis(b, a).booking == b
  {
  }

  /** Before submission the diagnosis is hidden, after submission it is shown,
      and once approved it is hidden again. */
  lemma VisibilityFlow(b: Booking, srv: Actor, user: Actor, report: string, items: string,
                       cost: Option<int>, time: Option<string>, now: nat)
    requires b.status == Pending && b.diagnosis.None?
    requires IsAssignedServicer(b, srv) && IsOwner(b, user)
    ensures !DiagnosisVisible(b)
    ensures
      var s := SubmitDiagnosis(b, srv, report, items, cost, time, now);
      && DiagnosisVisible(s.booking) && ApproveOffered(s.booking)
      && var t := ApproveDiagnosis(s.booking, user);
      && t.outcome == Done
      && !DiagnosisVisible(t.booking)
  {
  }

  /** Entries ordered oldest first. */
  predicate Chronological(s: seq<ProgressEntry>) {
    forall i, j :: 0 <= i < j < |s| ==> s[i].updatedAt <= s[j].updatedAt
  }

  /** An entry no newer than the head of a timeline may go in front of it. */
  lemma ConsChronological(x: ProgressEntry, rest: seq<ProgressEntry>)
    requires Chronological(rest)
    requires |rest| > 0 ==> x.updatedAt <= rest[0].updatedAt
    ensures Chronological([x] + rest)
  {
    var r := [x] + rest;
    forall i, j | 0 <= i < j < |r|
      ensures r[i].updatedAt <= r[j].updatedAt
    {
      assert r[j] == rest[j - 1];
      if i > 0 {
        assert r[i] == rest[i - 1];
      } else {
        assert rest[0].updatedAt <= rest[j - 1].updatedAt;
      }
    }
  }

  function InsertByTime(e: ProgressEntry, s: seq<ProgressEntry>): (r: seq<ProgressEntry>)
    requires Chronological(s)
    ensures Chronological(r)
    ensures multiset(r) == multiset(s) + multiset{e}
    ensures |r| > 0 && (r[0] == e || (|s| > 0 && r[0] == s[0]))
    decreases |s|
  {
    if |s| == 0 then [e]
    else if e.updatedAt < s[0].updatedAt then
      ConsChronological(e, s);
      [e] + s
    else
      var rest := InsertByTime(e, s[1..]);
      assert multiset(s) == multiset{s[0]} + multiset(s[1..]) by {
        assert s == [s[0]] + s[1..];
      }
      assert s[0].updatedAt <= rest[0].updatedAt by {
        if rest[0] != e {
          assert rest[0] == s[1];
        }
      }
      ConsChronological(s[0], rest);
      [s[0]] + rest
  }

  lemma SplitLast(log: seq<ProgressEntry>)
    requires |log| > 0
    ensures multiset(log) == multiset(log[..|log| - 1]) + multiset{log[|log| - 1]}
  {
    assert log == log[..|log| - 1] + [log[|log| - 1]];
  }

  lemma SameMultisetSameLength(a: seq<ProgressEntry>, b: seq<ProgressEntry>)
    requires multiset(a) == multiset(b)
    ensures |a| == |b|
  {
    assert |multiset(a)| == |a|;
  }

  /** The booking's timeline: every entry of the log, oldest first. */
  function Timeline(log: seq<ProgressEntry>): (r: seq<ProgressEntry>)
    ensures Chronological(r)
    ensures multiset(r) == multiset(log)
    ensures |r| == |log|
    decreases |log|
  {
    if |log| == 0 then []
    else
      var r := InsertByTime(log[|log| - 1], Timeline(log[..|log| - 1]));
      SplitLast(log);
      SameMultisetSameLength(r, log);
      r
  }

  /** An entry no older than every entry of a timeline goes at its end. */
  lemma {:induction false} InsertLatestAppends(e: ProgressEntry, s: seq<ProgressEntry>)
    requires Chronological(s)
    requires forall i :: 0 <= i < |s| ==> s[i].updatedAt <= e.updatedAt
    ensures InsertByTime(e, s) == s + [e]
    decreases |s|
  {
    if |s| > 0 {
      InsertLatestAppends(e, s[1..]);
      assert [s[0]] + (s[1..] + [e]) == s + [e];
    }
  }

  /** A log whose entries were written at increasing times is shown as it is,
      in the order the entries were created. */
  lemma {:induction false} TimelineKeepsChronologicalLog(log: seq<ProgressEntry>)
    requires Chronological(log)
    ensures Timeline(log) == log
    decreases |log|
  {
    if |log| > 0 {
      var init := log[..|log| - 1];
      TimelineKeepsChronologicalLog(init);
      InsertLatestAppends(log[|log| - 1], init);
      assert init + [log[|log| - 1]] == log;
    }
  }

  /** The bookings of `s` for which `keep` holds, each as often as it occurs
      in `s`, in their original order (see SelectAppend). */
  function Select(s: seq<Booking>, keep: Booking -> bool): (r: seq<Booking>)
    ensures forall b :: b in r <==> b in s && keep(b)
    ensures forall b :: multiset(r)[b] == (if keep(b) then multiset(s)[b] else 0)
    ensures |r| <= |s|
    decreases |s|
  {
    if |s| == 0 then []
    else
      assert s == [s[0]] + s[1..];
      if keep(s[0]) then [s[0]] + Select(s[1..], keep)
      else Select(s[1..], keep)
  }

  /** Selecting from two lists one after the other is selecting from each and
      concatenating: the selection keeps the order of the input. */
  lemma {:induction false} SelectAppend(s: seq<Booking>, t: seq<Booking>, keep: Booking -> bool)
    ensures Select(s + t, keep) == Select(s, keep) + Select(t, keep)
    decreases |s|
  {
    if |s| == 0 {
      assert s + t == t;
    } else {
      assert (s + t)[0] == s[0];
      assert (s + t)[1..] == s[1..] + t;
      SelectAppend(s[1..], t, keep);
    }
  }

  predicate AwaitsPayment(b: Booking, user: nat) {
    b.owner == user && b.paymentStatus == Some(PaymentPending)
  }

  predicate InWorkHistory(b: Booking, user: nat) {
    b.owner == user && b.status == Completed && b.paymentStatus == Some(Paid)
  }

  /** The user's bookings whose payment is pending, each listed once per
      occurrence, in the order given. */
  function PendingPayments(bookings: seq<Booking>, user: nat): (r: seq<Booking>)
    ensures forall b :: b in r <==>
      b in bookings && b.owner == user && b.paymentStatus == Some(PaymentPending)
    ensures forall b :: multiset(r)[b] == (if AwaitsPayment(b, user) then multiset(bookings)[b] else 0)
  {
    Select(bookings, b => AwaitsPayment(b, user))
  }

  /** The user's completed and paid bookings, each listed once per occurrence,
      in the order given. */
  function WorkHistory(bookings: seq<Booking>, user: nat): (r: seq<Booking>)
    ensures forall b :: b in r <==>
      b in bookings && b.owner == user && b.status == Completed && b.paymentStatus == Some(Paid)
    ensures forall b :: multiset(r)[b] == (if InWorkHistory(b, user) then multiset(bookings)[b] else 0)
  {
    Select(bookings, b => InWorkHistory(b, user))
  }

  /** Both lists keep the order of the bookings they are drawn from: the list
      of a concatenation is the concatenation of the lists. */
  lemma ListsKeepOrder(xs: seq<Booking>, ys: seq<Booking>, user: nat)
    ensures PendingPayments(xs + ys, user) == PendingPayments(xs, user) + PendingPayments(ys, user)
    ensures WorkHistory(xs + ys, user) == WorkHistory(xs, user) + WorkHistory(ys, user)
  {
    SelectAppend(xs, ys, b => AwaitsPayment(b, user));
    SelectAppend(xs, ys, b => InWorkHistory(b, user));
  }

  /** Paying moves a booking out of the pending-payment list and into the work history. */
  lemma PaymentMovesToHistory(b: Booking, a: Actor, now: nat)
    requires ProcessPayment(b, a, now).outcome == Done
    ensures AwaitsPayment(b, a.id) && !InWorkHistory(b, a.id)
    ensures !AwaitsPayment(ProcessPayment(b, a, now).booking, a.id)
    ensures InWorkHistory(ProcessPayment(b, a, now).booking, a.id)
  {
  }
}
