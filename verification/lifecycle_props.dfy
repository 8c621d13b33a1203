/**
 Properties of the booking lifecycle that relate several transitions or hold
 of every command: the status moves only along the lifecycle, failures change
 nothing, the progress log and the feedback are never edited, and the
 consistency invariant holds of every booking a run of commands produces.
 */
module LifecycleProps {
  import opened Models
  import opened Lifecycle
  import Views

  /** The status moves allowed by the lifecycle (staying put included). */
  predicate AllowedMove(from: Status, to: Status) {
    || from == to
    || (from == Requested && to == Pending)
    || (from == Requested && to == Rejected)
    || (from == Pending && to == Ongoing)
    || (from == Ongoing && to == Completed)
  }

  /** The role a command is reserved for. */
  function RequiredRole(c: Command): Role {
    match c
    case AcceptCmd(_) => ServicerRole
    case RejectCmd => ServicerRole
    case DiagnoseCmd(_, _, _, _) => ServicerRole
    case ProgressCmd(_, _) => ServicerRole
    case CompleteCmd(_, _) => ServicerRole
    case ApproveCmd => UserRole
    case PayCmd => UserRole
    case FeedbackCmd(_, _) => UserRole
  }

  /** The party of the booking a command's caller must be. */
  function Party(b: Booking, c: Command): nat {
    if RequiredRole(c) == ServicerRole then b.servicer else b.owner
  }

  /** Every command moves the status along the lifecycle or leaves it. */
  lemma ApplyMovesAlongLifecycle(b: Booking, a: Actor, c: Command, now: nat)
    ensures AllowedMove(b.status, Apply(b, a, c, now).booking.status)
  {
  }

  /** A command that does not succeed leaves the booking exactly as it was. */
  lemma FailureChangesNothing(b: Booking, a: Actor, c: Command, now: nat)
    ensures Apply(b, a, c, now).outcome != Done ==> Apply(b, a, c, now).booking == b
  {
  }

  /** A caller of the right role who is not the booking's party gets NotFound;
      a caller of the wrong role gets Forbidden; neither changes anything. */
  lemma OwnershipIsScoped(b: Booking, a: Actor, c: Command, now: nat)
    ensures a.role == RequiredRole(c) && a.id != Party(b, c) ==>
      Apply(b, a, c, now) == Step(NotFound, b)
    ensures a.role != RequiredRole(c) ==> Apply(b, a, c, now) == Step(Forbidden, b)
  {
  }

  /** No command edits or removes a progress entry, changes who the booking
      belongs to, rewrites the diagnosis (beyond approving it) or touches an
      existing feedback; at most one entry is appended. */
  lemma ApplyKeepsHistory(b: Booking, a: Actor, c: Command, now: nat)
    ensures LogExtends(b.progress, Apply(b, a, c, now).booking.progress)
    ensures |Apply(b, a, c, now).booking.progress| <= |b.progress| + 1
    ensures SameParties(b, Apply(b, a, c, now).booking)
    ensures DiagnosisKept(b, Apply(b, a, c, now).booking)
    ensures b.feedback.Some? ==> Apply(b, a, c, now).booking.feedback == b.feedback
  {
  }

  /** Rejected and Completed are terminal: no command leaves them. */
  lemma TerminalStatuses(b: Booking, a: Actor, c: Command, now: nat)
    ensures b.status == Rejected ==> Apply(b, a, c, now).booking.status == Rejected
    ensures b.status == Completed ==> Apply(b, a, c, now).booking.status == Completed
    ensures Apply(b, a, c, now).booking.status == Rejected && b.status != Rejected ==>
      b.status == Requested && c == RejectCmd
  {
  }

  /** Every command keeps the consistency invariant. */
  lemma ApplyKeepsConsistent(b: Booking, a: Actor, c: Command, now: nat)
    requires Consistent(b)
    ensures Consistent(Apply(b, a, c, now).booking)
  {
  }

  /** One request: who makes it, what it is, and when. */
  datatype Request = Request(actor: Actor, command: Command, now: nat)

  /** The booking after a sequence of requests, failed ones included. */
  function Run(b: Booking, rs: seq<Request>): Booking
    decreases |rs|
  {
    if |rs| == 0 then b
    else Run(Apply(b, rs[0].actor, rs[0].command, rs[0].now).booking, rs[1..])
  }

  /** Every booking reachable from a new one by any sequence of requests
      satisfies the consistency invariant. */
  lemma {:induction false} RunKeepsConsistent(b: Booking, rs: seq<Request>)
    requires Consistent(b)
    ensures Consistent(Run(b, rs))
    decreases |rs|
  {
    if |rs| > 0 {
      ApplyKeepsConsistent(b, rs[0].actor, rs[0].command, rs[0].now);
      RunKeepsConsistent(Apply(b, rs[0].actor, rs[0].command, rs[0].now).booking, rs[1..]);
    }
  }

  lemma ReachableIsConsistent(id: nat, owner: nat, servicer: nat, rs: seq<Request>)
    ensures Consistent(Run(NewBooking(id, owner, servicer), rs))
  {
    RunKeepsConsistent(NewBooking(id, owner, servicer), rs);
  }

  /** The log guard of Complete counts the entries Accept and SubmitDiagnosis
      append, so on a booking reached from a new one it never fails: an Ongoing
      booking already holds at least two entries. Only a seeded booking with an
      empty log is refused for it. */
  lemma CompleteLogGuardOnlyOnSeeded(id: nat, owner: nat, servicer: nat, rs: seq<Request>,
                                     a: Actor, amount: int, notes: string, now: nat)
    ensures
      var b := Run(NewBooking(id, owner, servicer), rs);
      && (b.status == Ongoing ==> |b.progress| >= 2)
      && (b.status == Ongoing && IsAssignedServicer(b, a) ==>
            Complete(b, a, amount, notes, now).outcome in {Done, Invalid})
  {
    RunKeepsConsistent(NewBooking(id, owner, servicer), rs);
  }

  /** A servicer can complete a booking without logging any manual progress
      update: the log holds only the automatic entries. */
  lemma CompleteWithoutManualProgress()
    ensures
      var user := Actor(1, UserRole);
      var srv := Actor(7, ServicerRole);
      var s1 := Accept(NewBooking(0, 1, 7), srv, "pickup", 1);
      var s2 := SubmitDiagnosis(s1.booking, srv, "Brakes", "Pads", None, None, 2);
      var s3 := ApproveDiagnosis(s2.booking, user);
      var s4 := Complete(s3.booking, srv, 1000, "", 3);
      && s4.outcome == Done
      && forall i :: 0 <= i < |s4.booking.progress| ==> s4.booking.progress[i].status != InProgress
  {
  }

  /** Over any run, earlier progress entries survive unchanged and the parties stay. */
  lemma {:induction false} RunKeepsHistory(b: Booking, rs: seq<Request>)
    ensures LogExtends(b.progress, Run(b, rs).progress)
    ensures SameParties(b, Run(b, rs))
    ensures b.feedback.Some? ==> Run(b, rs).feedback == b.feedback
    decreases |rs|
  {
    if |rs| > 0 {
      var b1 := Apply(b, rs[0].actor, rs[0].command, rs[0].now).booking;
      ApplyKeepsHistory(b, rs[0].actor, rs[0].command, rs[0].now);
      RunKeepsHistory(b1, rs[1..]);
      var end := Run(b1, rs[1..]).progress;
      assert end[..|b1.progress|] == b1.progress;
      assert end[..|b.progress|] == end[..|b1.progress|][..|b.progress|];
    }
  }

  /** An entry a command adds is stamped with the time of the request. */
  lemma ApplyStampsNewEntry(b: Booking, a: Actor, c: Command, now: nat)
    ensures |Apply(b, a, c, now).booking.progress| > |b.progress| ==>
      Last(Apply(b, a, c, now).booking.progress).updatedAt == now
  {
  }

  /** No entry of the log is newer than `t`. */
  predicate NoLaterThan(log: seq<ProgressEntry>, t: nat) {
    forall i :: 0 <= i < |log| ==> log[i].updatedAt <= t
  }

  /** A command whose time is no earlier than any entry keeps the log in time
      order, and leaves no entry newer than that time. */
  lemma ApplyKeepsChronological(b: Booking, a: Actor, c: Command, now: nat)
    requires Views.Chronological(b.progress)
    requires NoLaterThan(b.progress, now)
    ensures Views.Chronological(Apply(b, a, c, now).booking.progress)
    ensures NoLaterThan(Apply(b, a, c, now).booking.progress, now)
  {
    var p := Apply(b, a, c, now).booking.progress;
    ApplyKeepsHistory(b, a, c, now);
    ApplyStampsNewEntry(b, a, c, now);
    if |p| > |b.progress| {
      assert p == b.progress + [Last(p)];
    } else {
      assert p == b.progress;
    }
  }

  /** The requests of a run arrive in time order. */
  predicate TimesInOrder(rs: seq<Request>) {
    forall i, j :: 0 <= i < j < |rs| ==> rs[i].now <= rs[j].now
  }

  /** Requests in time order, none earlier than the log's entries, keep the
      log in time order. */
  lemma {:induction false} RunKeepsChronological(b: Booking, rs: seq<Request>)
    requires Views.Chronological(b.progress)
    requires TimesInOrder(rs)
    requires |rs| > 0 ==> NoLaterThan(b.progress, rs[0].now)
    ensures Views.Chronological(Run(b, rs).progress)
    decreases |rs|
  {
    if |rs| > 0 {
      var b1 := Apply(b, rs[0].actor, rs[0].command, rs[0].now).booking;
      ApplyKeepsChronological(b, rs[0].actor, rs[0].command, rs[0].now);
      var rest := rs[1..];
      assert TimesInOrder(rest) by {
        forall i, j | 0 <= i < j < |rest|
          ensures rest[i].now <= rest[j].now
        {
          assert rest[i] == rs[i + 1] && rest[j] == rs[j + 1];
        }
      }
      if |rest| > 0 {
        assert rs[0].now <= rest[0].now by { assert rest[0] == rs[1]; }
      }
      RunKeepsChronological(b1, rest);
    }
  }

  /** For a booking driven by requests in time order, the timeline page shows
      the log exactly as it was written. */
  lemma TimelineShowsRunLog(id: nat, owner: nat, servicer: nat, rs: seq<Request>)
    requires TimesInOrder(rs)
    ensures Views.Timeline(Run(NewBooking(id, owner, servicer), rs).progress)
      == Run(NewBooking(id, owner, servicer), rs).progress
  {
    RunKeepsChronological(NewBooking(id, owner, servicer), rs);
    Views.TimelineKeepsChronologicalLog(Run(NewBooking(id, owner, servicer), rs).progress);
  }

  /** Approving twice: the second call reports AlreadyDone and changes nothing,
      so the booking stays Ongoing with the diagnosis approved. */
  lemma ApproveIsIdempotent(b: Booking, a: Actor)
    requires ApproveDiagnosis(b, a).outcome == Done
    ensures ApproveDiagnosis(ApproveDiagnosis(b, a).booking, a)
      == Step(AlreadyDone, ApproveDiagnosis(b, a).booking)
    ensures ApproveDiagnosis(b, a).booking.status == Ongoing
    ensures ApproveDiagnosis(b, a).booking.diagnosis.value.userApproved
  {
  }

  /** Paying twice: the second call reports AlreadyDone and keeps the first
      call's payment date. */
  lemma PaymentIsIdempotent(b: Booking, a: Actor, now1: nat, now2: nat)
    requires ProcessPayment(b, a, now1).outcome == Done
    ensures ProcessPayment(ProcessPayment(b, a, now1).booking, a, now2)
      == Step(AlreadyDone, ProcessPayment(b, a, now1).booking)
    ensures ProcessPayment(b, a, now1).booking.paymentStatus == Some(Paid)
    ensures ProcessPayment(b, a, now1).booking.paymentDate == Some(now1)
  {
  }

  /** A second feedback for the same booking is refused and the first is kept. */
  lemma FeedbackIsOnce(b: Booking, a: Actor, r1: Option<int>, m1: string, r2: Option<int>, m2: string)
    requires SubmitFeedback(b, a, r1, m1).outcome == Done
    ensures SubmitFeedback(SubmitFeedback(b, a, r1, m1).booking, a, r2, m2)
      == Step(AlreadyDone, SubmitFeedback(b, a, r1, m1).booking)
    ensures SubmitFeedback(b, a, r1, m1).booking.feedback.value.rating == r1.value
  {
  }

  /** A manual progress update: title, description and timestamp. */
  datatype Update = Update(title: string, description: string, now: nat)

  /** The booking after the servicer posts the updates one after the other. */
  function AddAll(b: Booking, a: Actor, us: seq<Update>): Booking
    decreases |us|
  {
    if |us| == 0 then b
    else AddAll(AddProgress(b, a, us[0].title, us[0].description, us[0].now).booking, a, us[1..])
  }

  /** n accepted updates yield exactly n new entries, in order, all labelled
      In Progress, with the booking otherwise unchanged. */
  lemma {:induction false} AddAllAppendsEach(b: Booking, a: Actor, us: seq<Update>)
    requires IsAssignedServicer(b, a) && MayAddProgress(b)
    ensures AddAll(b, a, us) == b.(progress := AddAll(b, a, us).progress)
    ensures |AddAll(b, a, us).progress| == |b.progress| + |us|
    ensures LogExtends(b.progress, AddAll(b, a, us).progress)
    ensures forall i :: 0 <= i < |us| ==>
      AddAll(b, a, us).progress[|b.progress| + i]
        == ProgressEntry(us[i].title, us[i].description, InProgress, us[i].now)
    decreases |us|
  {
    if |us| > 0 {
      var b1 := AddProgress(b, a, us[0].title, us[0].description, us[0].now).booking;
      assert b1.progress == b.progress + [ProgressEntry(us[0].title, us[0].description, InProgress, us[0].now)];
      AddAllAppendsEach(b1, a, us[1..]);
      var end := AddAll(b1, a, us[1..]).progress;
      assert end[..|b1.progress|] == b1.progress;
      assert end[..|b.progress|] == b.progress by {
        assert end[..|b.progress|] == end[..|b1.progress|][..|b.progress|];
      }
      forall i | 0 <= i < |us|
        ensures end[|b.progress| + i] == ProgressEntry(us[i].title, us[i].description, InProgress, us[i].now)
      {
        if i == 0 {
          assert end[|b.progress|] == end[..|b1.progress|][|b.progress|];
        } else {
          assert us[1..][i - 1] == us[i];
        }
      }
    }
  }

  /** The lifecycle as the system walks it, from request to settled feedback. */
  lemma HappyPath()
    ensures
      var user := Actor(1, UserRole);
      var srv := Actor(7, ServicerRole);
      var b0 := NewBooking(0, 1, 7);
      var s1 := Accept(b0, srv, "pickup", 1);
      var s2 := SubmitDiagnosis(s1.booking, srv, "Oil change", "Oil, filter", Some(500000), None, 2);
      var s3 := ApproveDiagnosis(s2.booking, user);
      var s4 := AddProgress(s3.booking, srv, "Work in progress", "Oil changed", 3);
      var s5 := Complete(s4.booking, srv, 550000, "All done", 4);
      var s6 := ProcessPayment(s5.booking, user, 5);
      var s7 := SubmitFeedback(s6.booking, user, Some(5), "Great");
      && b0.status == Requested
      && s1.outcome == Done && s1.booking.status == Pending && |s1.booking.progress| == 1
      && s2.outcome == Done && s2.booking.status == Pending
      && !s2.booking.diagnosis.value.userApproved
      && s3.outcome == Done && s3.booking.status == Ongoing
      && s4.outcome == Done && s4.booking.status == Ongoing
      && s5.outcome == Done && s5.booking.status == Completed
      && s5.booking.paymentStatus == Some(PaymentPending) && s5.booking.paymentRequested
      && s6.outcome == Done && s6.booking.paymentStatus == Some(Paid)
      && s7.outcome == Done && s7.booking.feedback.Some?
  {
  }
}
