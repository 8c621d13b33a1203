/**
 The guarded transitions of a booking. Every transition is total: it is
 defined on every booking value, including ones no sequence of transitions
 produces, and it either succeeds, reports that its effect is already in
 place, or fails and returns the booking unchanged.
 */
module Lifecycle {
  import opened Models

  datatype Role = UserRole | ServicerRole | AdminRole

  /** The caller of a transition. For a servicer, `id` is the servicer
      record the account manages; for a user it is the account itself. */
  datatype Actor = Actor(id: nat, role: Role)

  /** How a transition ended.
      NotFound: the booking is not the actor's (indistinguishable from absent).
      Forbidden: the actor's role may not call this transition at all.
      WrongState: the lifecycle guard does not hold.
      AlreadyDone: the effect is already in place (a warning, not an error).
      Invalid: the input itself is malformed. */
  datatype Outcome = Done | AlreadyDone | NotFound | Forbidden | WrongState | Invalid

  datatype Step = Step(outcome: Outcome, booking: Booking)

  predicate IsAssignedServicer(b: Booking, a: Actor) {
    a.role == ServicerRole && a.id == b.servicer
  }

  predicate IsOwner(b: Booking, a: Actor) {
    a.role == UserRole && a.id == b.owner
  }

  /** Lookup of a booking scoped to a servicer actor. */
  function ServicerGate(b: Booking, a: Actor): Outcome {
    if a.role != ServicerRole then Forbidden
    else if a.id != b.servicer then NotFound
    else Done
  }

  /** Lookup of a booking scoped to its owning user. */
  function OwnerGate(b: Booking, a: Actor): Outcome {
    if a.role != UserRole then Forbidden
    else if a.id != b.owner then NotFound
    else Done
  }

  function Last<T>(s: seq<T>): T
    requires |s| > 0
  {
    s[|s| - 1]
  }

  /** The log grew by exactly one entry at the end, with this title, label and time. */
  predicate AppendedOne(b: Booking, b': Booking, title: string, status: ProgressStatus, now: nat) {
    && LogExtends(b.progress, b'.progress)
    && |b'.progress| == |b.progress| + 1
    && Last(b'.progress).title == title
    && Last(b'.progress).status == status
    && Last(b'.progress).updatedAt == now
  }

  function Fail(o: Outcome, b: Booking): Step {
    Step(o, b)
  }

  /** The assigned servicer accepts a requested booking. */
  function Accept(b: Booking, a: Actor, pickup: string, now: nat): (r: Step)
    ensures r.outcome == Done <==> IsAssignedServicer(b, a) && b.status == Requested
    ensures r.outcome == Forbidden <==> a.role != ServicerRole
    ensures r.outcome == NotFound <==> a.role == ServicerRole && a.id != b.servicer
    ensures r.outcome == WrongState <==> IsAssignedServicer(b, a) && b.status != Requested
    ensures r.outcome != Done ==> r.booking == b
    ensures r.outcome == Done ==>
      && r.booking.status == Pending
      && r.booking.pickupChoice == Some(pickup)
      && AppendedOne(b, r.booking, "Request Accepted", ProgressPending, now)
      && Last(r.booking.progress).description == "Service request accepted"
      && r.booking.diagnosis == b.diagnosis
      && SameParties(b, r.booking) && SameSettlement(b, r.booking)
  {
    var gate := ServicerGate(b, a);
    if gate != Done then Fail(gate, b)
    else if b.status != Requested then Fail(WrongState, b)
    else
      var entry := ProgressEntry("Request Accepted", "Service request accepted", ProgressPending, now);
      Step(Done, b.(status := Pending, pickupChoice := Some(pickup), progress := b.progress + [entry]))
  }

  /** The assigned servicer turns a requested booking down; Rejected is terminal. */
  function Reject(b: Booking, a: Actor): (r: Step)
    ensures r.outcome == Done <==> IsAssignedServicer(b, a) && b.status == Requested
    ensures r.outcome == Forbidden <==> a.role != ServicerRole
    ensures r.outcome == NotFound <==> a.role == ServicerRole && a.id != b.servicer
    ensures r.outcome == WrongState <==> IsAssignedServicer(b, a) && b.status != Requested
    ensures r.outcome != Done ==> r.booking == b
    ensures r.outcome == Done ==> r.booking == b.(status := Rejected)
  {
    var gate := ServicerGate(b, a);
    if gate != Done then Fail(gate, b)
    else if b.status != Requested then Fail(WrongState, b)
    else Step(Done, b.(status := Rejected))
  }

  /** The assigned servicer attaches a diagnosis to a pending booking. A second
      diagnosis is refused, never overwrites the first, and the status stays. */
  function SubmitDiagnosis(
    b: Booking, a: Actor, report: string, workItems: string,
    estimatedCost: Option<int>, estimatedTime: Option<string>, now: nat): (r: Step)
    ensures r.outcome == Done <==>
      IsAssignedServicer(b, a) && b.status == Pending && b.diagnosis.None?
    ensures r.outcome == Forbidden <==> a.role != ServicerRole
    ensures r.outcome == NotFound <==> a.role == ServicerRole && a.id != b.servicer
    ensures r.outcome == AlreadyDone <==>
      IsAssignedServicer(b, a) && b.status == Pending && b.diagnosis.Some?
    ensures r.outcome == WrongState <==> IsAssignedServicer(b, a) && b.status != Pending
    ensures r.outcome != Done ==> r.booking == b
    ensures r.outcome == Done ==>
      && r.booking.status == b.status
      && r.booking.diagnosis == Some(Diagnosis(report, workItems, estimatedCost, estimatedTime, false))
      && AppendedOne(b, r.booking, "Diagnosis Submitted", ProgressPending, now)
      && Last(r.booking.progress).description == report
      && r.booking.pickupChoice == b.pickupChoice
      && SameParties(b, r.booking) && SameSettlement(b, r.booking)
  {
    var gate := ServicerGate(b, a);
    if gate != Done then Fail(gate, b)
    else if b.status != Pending then Fail(WrongState, b)
    else if b.diagnosis.Some? then Fail(AlreadyDone, b)
    else
      var d := Diagnosis(report, workItems, estimatedCost, estimatedTime, false);
      var entry := ProgressEntry("Diagnosis Submitted", report, ProgressPending, now);
      Step(Done, b.(diagnosis := Some(d), progress := b.progress + [entry]))
  }

  /** The owner approves the diagnosis of a pending booking, which starts the
      work. Approving again is reported as already done and changes nothing. */
  function ApproveDiagnosis(b: Booking, a: Actor): (r: Step)
    ensures r.outcome == Done <==>
      && IsOwner(b, a) && b.status == Pending
      && b.diagnosis.Some? && !b.diagnosis.value.userApproved
    ensures r.outcome == Forbidden <==> a.role != UserRole
    ensures r.outcome == NotFound <==> a.role == UserRole && a.id != b.owner
    ensures r.outcome == AlreadyDone <==>
      IsOwner(b, a) && b.diagnosis.Some? && b.diagnosis.value.userApproved
    ensures r.outcome == WrongState <==>
      IsOwner(b, a) && (b.diagnosis.None? || (!b.diagnosis.value.userApproved && b.status != Pending))
    ensures r.outcome != Done ==> r.booking == b
    ensures r.outcome == Done ==>
      && r.booking.status == Ongoing
      && r.booking.diagnosis == Some(b.diagnosis.value.(userApproved := true))
      && r.booking.progress == b.progress
      && r.booking.pickupChoice == b.pickupChoice
      && SameParties(b, r.booking) && SameSettlement(b, r.booking)
  {
    var gate := OwnerGate(b, a);
    if gate != Done then Fail(gate, b)
    else if b.diagnosis.None? then Fail(WrongState, b)
    else if b.diagnosis.value.userApproved then Fail(AlreadyDone, b)
    else if b.status != Pending then Fail(WrongState, b)
    else
      Step(Done, b.(status := Ongoing, diagnosis := Some(b.diagnosis.value.(userApproved := true))))
  }

  /** Work may be logged only on an ongoing booking whose diagnosis the owner approved. */
  predicate MayAddProgress(b: Booking) {
    b.status == Ongoing && b.diagnosis.Some? && b.diagnosis.value.userApproved
  }

  /** The assigned servicer logs a manual progress update. */
  function AddProgress(b: Booking, a: Actor, title: string, description: string, now: nat): (r: Step)
    ensures r.outcome == Done <==> IsAssignedServicer(b, a) && MayAddProgress(b)
    ensures r.outcome == Forbidden <==> a.role != ServicerRole
    ensures r.outcome == NotFound <==> a.role == ServicerRole && a.id != b.servicer
    ensures r.outcome == WrongState <==> IsAssignedServicer(b, a) && !MayAddProgress(b)
    ensures r.outcome != Done ==> r.booking == b
    ensures r.outcome == Done ==>
      && r.booking == b.(progress := r.booking.progress)
      && AppendedOne(b, r.booking, title, InProgress, now)
      && Last(r.booking.progress).description == description
  {
    var gate := ServicerGate(b, a);
    if gate != Done then Fail(gate, b)
    else if !MayAddProgress(b) then Fail(WrongState, b)
    else Step(Done, b.(progress := b.progress + [ProgressEntry(title, description, InProgress, now)]))
  }

  /** The assigned servicer closes an ongoing booking that has at least one
      progress entry, which raises the payment request. */
  function Complete(b: Booking, a: Actor, finalAmount: int, notes: string, now: nat): (r: Step)
    ensures r.outcome == Done <==>
      IsAssignedServicer(b, a) && b.status == Ongoing && |b.progress| > 0 && finalAmount > 0
    ensures r.outcome == Invalid <==>
      IsAssignedServicer(b, a) && b.status == Ongoing && |b.progress| > 0 && finalAmount <= 0
    ensures r.outcome == Forbidden <==> a.role != ServicerRole
    ensures r.outcome == NotFound <==> a.role == ServicerRole && a.id != b.servicer
    ensures r.outcome == WrongState <==>
      IsAssignedServicer(b, a) && (b.status != Ongoing || |b.progress| == 0)
    ensures r.outcome != Done ==> r.booking == b
    ensures r.outcome == Done ==>
      && r.booking.status == Completed
      && r.booking.paymentRequested
      && r.booking.paymentStatus == Some(PaymentPending)
      && r.booking.finalAmount == Some(finalAmount)
      && r.booking.completionNotes == Some(notes)
      && r.booking.paymentDate == b.paymentDate
      && r.booking.feedback == b.feedback
      && AppendedOne(b, r.booking, "Service Completed", ProgressCompleted, now)
      && Last(r.booking.progress).description == notes
      && r.booking.diagnosis == b.diagnosis
      && r.booking.pickupChoice == b.pickupChoice
      && SameParties(b, r.booking)
  {
    var gate := ServicerGate(b, a);
    if gate != Done then Fail(gate, b)
    else if b.status != Ongoing then Fail(WrongState, b)
    else if |b.progress| == 0 then Fail(WrongState, b)
    else if finalAmount <= 0 then Fail(Invalid, b)
    else
      var entry := ProgressEntry("Service Completed", notes, ProgressCompleted, now);
      Step(Done, b.(
        status := Completed,
        paymentRequested := true,
        paymentStatus := Some(PaymentPending),
        finalAmount := Some(finalAmount),
        completionNotes := Some(notes),
        progress := b.progress + [entry]))
  }

  /** The owner pays a completed booking whose payment is pending. Paying
      again is reported as already done and keeps the first payment date. */
  function ProcessPayment(b: Booking, a: Actor, now: nat): (r: Step)
    ensures r.outcome == Done <==>
      IsOwner(b, a) && b.status == Completed && b.paymentStatus == Some(PaymentPending)
    ensures r.outcome == AlreadyDone <==>
      IsOwner(b, a) && b.status == Completed && b.paymentStatus == Some(Paid)
    ensures r.outcome == Forbidden <==> a.role != UserRole
    ensures r.outcome == NotFound <==> a.role == UserRole && a.id != b.owner
    ensures r.outcome == WrongState <==>
      IsOwner(b, a) && (b.status != Completed || b.paymentStatus.None?)
    ensures r.outcome != Done ==> r.booking == b
    ensures r.outcome == Done ==>
      r.booking == b.(paymentStatus := Some(Paid), paymentDate := Some(now))
  {
    var gate := OwnerGate(b, a);
    if gate != Done then Fail(gate, b)
    else if b.status != Completed then Fail(WrongState, b)
    else match b.paymentStatus
      case Some(Paid) => Fail(AlreadyDone, b)
      case Some(PaymentPending) => Step(Done, b.(paymentStatus := Some(Paid), paymentDate := Some(now)))
      case None => Fail(WrongState, b)
  }

  /** The feedback form accepts a rating from 1 to 5 and a non-empty message. */
  predicate ValidFeedbackInput(rating: Option<int>, message: string) {
    rating.Some? && 1 <= rating.value <= 5 && |message| > 0
  }

  /** Feedback may be left only on a completed, paid booking. */
  predicate MayLeaveFeedback(b: Booking) {
    b.status == Completed && b.paymentStatus == Some(Paid)
  }

  /** The owner leaves the single feedback of a completed, paid booking. */
  function SubmitFeedback(b: Booking, a: Actor, rating: Option<int>, message: string): (r: Step)
    ensures r.outcome == Done <==>
      && IsOwner(b, a) && MayLeaveFeedback(b) && b.feedback.None?
      && ValidFeedbackInput(rating, message)
    ensures r.outcome == AlreadyDone <==> IsOwner(b, a) && MayLeaveFeedback(b) && b.feedback.Some?
    ensures r.outcome == Forbidden <==> a.role != UserRole
    ensures r.outcome == NotFound <==> a.role == UserRole && a.id != b.owner
    ensures r.outcome == WrongState <==> IsOwner(b, a) && !MayLeaveFeedback(b)
    ensures r.outcome == Invalid <==>
      IsOwner(b, a) && MayLeaveFeedback(b) && b.feedback.None? && !ValidFeedbackInput(rating, message)
    ensures r.outcome != Done ==> r.booking == b
    ensures r.outcome == Done ==>
      && r.booking == b.(feedback := r.booking.feedback)
      && r.booking.feedback.Some?
      && r.booking.feedback.value.rating == rating.value
      && r.booking.feedback.value.message == message
      && r.booking.feedback.value.user == b.owner
      && r.booking.feedback.value.servicer == b.servicer
      && r.booking.feedback.value.booking == b.id
  {
    var gate := OwnerGate(b, a);
    if gate != Done then Fail(gate, b)
    else if !MayLeaveFeedback(b) then Fail(WrongState, b)
    else if b.feedback.Some? then Fail(AlreadyDone, b)
    else if !ValidFeedbackInput(rating, message) then Fail(Invalid, b)
    else Step(Done, b.(feedback := Some(Feedback(rating.value, message, b.owner, b.servicer, b.id))))
  }

  /** Every request a caller can make against one booking. No command edits or
      deletes a progress entry or a feedback: those only have create routes. */
  datatype Command =
    | AcceptCmd(pickup: string)
    | RejectCmd
    | DiagnoseCmd(report: string, workItems: string, estimatedCost: Option<int>, estimatedTime: Option<string>)
    | ApproveCmd
    | ProgressCmd(title: string, description: string)
    | CompleteCmd(finalAmount: int, notes: string)
    | PayCmd
    | FeedbackCmd(rating: Option<int>, message: string)

  function Apply(b: Booking, a: Actor, c: Command, now: nat): Step {
    match c
    case AcceptCmd(p) => Accept(b, a, p, now)
    case RejectCmd => Reject(b, a)
    case DiagnoseCmd(rep, items, cost, time) => SubmitDiagnosis(b, a, rep, items, cost, time, now)
    case ApproveCmd => ApproveDiagnosis(b, a)
    case ProgressCmd(t, d) => AddProgress(b, a, t, d, now)
    case CompleteCmd(amt, notes) => Complete(b, a, amt, notes, now)
    case PayCmd => ProcessPayment(b, a, now)
    case FeedbackCmd(rt, msg) => SubmitFeedback(b, a, rt, msg)
  }
}
