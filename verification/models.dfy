/**
 The entities of the booking core: a service request (booking), its optional
 diagnosis, its append-only work-progress log and its optional feedback, plus
 the string vocabulary the system stores for each enumeration.
 */
module Models {

  /** Lifecycle position of a booking. */
  datatype Status = Requested | Pending | Ongoing | Completed | Rejected

  /** Settlement state of a completed booking. */
  datatype PaymentStatus = PaymentPending | Paid

  /** Informational label of a work-progress entry. */
  datatype ProgressStatus = ProgressPending | InProgress | ProgressCompleted

  datatype Option<T> = None | Some(value: T)

  function StatusLabel(s: Status): string {
    match s
    case Requested => "Requested"
    case Pending => "Pending"
    case Ongoing => "Ongoing"
    case Completed => "Completed"
    case Rejected => "Rejected"
  }

  /** Reads a stored booking status; a label outside the vocabulary (for
      instance the stale "Accepted") is not a status. */
  function ParseStatus(text: string): (r: Option<Status>)
    ensures r.Some? ==> StatusLabel(r.value) == text
  {
    if text == "Requested" then Some(Requested)
    else if text == "Pending" then Some(Pending)
    else if text == "Ongoing" then Some(Ongoing)
    else if text == "Completed" then Some(Completed)
    else if text == "Rejected" then Some(Rejected)
    else None
  }

  function PaymentLabel(p: PaymentStatus): string {
    match p
    case PaymentPending => "Pending"
    case Paid => "Paid"
  }

  function ParsePayment(text: string): (r: Option<PaymentStatus>)
    ensures r.Some? ==> PaymentLabel(r.value) == text
  {
    if text == "Pending" then Some(PaymentPending)
    else if text == "Paid" then Some(Paid)
    else None
  }

  function ProgressLabel(p: ProgressStatus): string {
    match p
    case ProgressPending => "Pending"
    case InProgress => "In Progress"
    case ProgressCompleted => "Completed"
  }

  function ParseProgress(text: string): (r: Option<ProgressStatus>)
    ensures r.Some? ==> ProgressLabel(r.value) == text
  {
    if text == "Pending" then Some(ProgressPending)
    else if text == "In Progress" then Some(InProgress)
    else if text == "Completed" then Some(ProgressCompleted)
    else None
  }

  /** Every status label reads back as the status it came from. */
  lemma StatusVocabularyRoundTrip(s: Status)
    ensures ParseStatus(StatusLabel(s)) == Some(s)
  {
  }

  /** The stale "Accepted" value of the older schema is not a status. */
  lemma AcceptedIsNotAStatus()
    ensures ParseStatus("Accepted") == None
  {
  }

  lemma PaymentVocabularyRoundTrip(p: PaymentStatus)
    ensures ParsePayment(PaymentLabel(p)) == Some(p)
  {
  }

  lemma ProgressVocabularyRoundTrip(p: ProgressStatus)
    ensures ParseProgress(ProgressLabel(p)) == Some(p)
  {
  }

  /** One entry of a booking's work-progress log; `updatedAt` is an abstract
      timestamp. The entry belongs to the booking whose log holds it. */
  datatype ProgressEntry = ProgressEntry(
    title: string,
    description: string,
    status: ProgressStatus,
    updatedAt: nat)

  /** The servicer's diagnosis of a booking; amounts are in hundredths. */
  datatype Diagnosis = Diagnosis(
    report: string,
    workItems: string,
    estimatedCost: Option<int>,
    estimatedCompletionTime: Option<string>,
    userApproved: bool)

  /** The owner's feedback, denormalised with the booking's user and servicer. */
  datatype Feedback = Feedback(
    rating: int,
    message: string,
    user: nat,
    servicer: nat,
    booking: nat)

  /** A service request. `owner` is the user account, `servicer` the servicer
      record assigned to it. Amounts are in hundredths; `paymentDate` is an
      abstract timestamp. */
  datatype Booking = Booking(
    id: nat,
    owner: nat,
    servicer: nat,
    status: Status,
    pickupChoice: Option<string>,
    diagnosis: Option<Diagnosis>,
    progress: seq<ProgressEntry>,
    paymentRequested: bool,
    paymentStatus: Option<PaymentStatus>,
    finalAmount: Option<int>,
    completionNotes: Option<string>,
    paymentDate: Option<nat>,
    feedback: Option<Feedback>)

  /** A booking as first submitted by its owner. */
  function NewBooking(id: nat, owner: nat, servicer: nat): (b: Booking)
    ensures b.status == Requested && StatusLabel(b.status) == "Requested"
    ensures b.id == id && b.owner == owner && b.servicer == servicer
    ensures b.diagnosis.None? && b.feedback.None? && |b.progress| == 0
    ensures !b.paymentRequested && b.paymentStatus.None? && b.finalAmount.None?
    ensures b.completionNotes.None? && b.paymentDate.None? && b.pickupChoice.None?
  {
    Booking(id, owner, servicer, Requested, None, None, [], false, None, None, None, None, None)
  }

  /** Servicer ratings are decimals with two digits, one after the point,
      kept here as a whole number of tenths. */
  const MaxRatingTenths: int := 99
  const DefaultRatingTenths: int := 45

  predicate IsRatingTenths(t: int) {
    0 <= t <= MaxRatingTenths
  }

  /** The log `before` is an unchanged prefix of `after`. */
  predicate LogExtends(before: seq<ProgressEntry>, after: seq<ProgressEntry>) {
    |before| <= |after| && after[..|before|] == before
  }

  /** Who the booking belongs to never changes. */
  predicate SameParties(b: Booking, b': Booking) {
    b'.id == b.id && b'.owner == b.owner && b'.servicer == b.servicer
  }

  /** The settlement fields are untouched. */
  predicate SameSettlement(b: Booking, b': Booking) {
    && b'.paymentRequested == b.paymentRequested
    && b'.paymentStatus == b.paymentStatus
    && b'.finalAmount == b.finalAmount
    && b'.completionNotes == b.completionNotes
    && b'.paymentDate == b.paymentDate
    && b'.feedback == b.feedback
  }

  /** The diagnosis, if any, is kept except possibly for its approval flag. */
  predicate DiagnosisKept(b: Booking, b': Booking) {
    b.diagnosis.Some? ==>
      && b'.diagnosis.Some?
      && b'.diagnosis.value == b.diagnosis.value.(userApproved := b'.diagnosis.value.userApproved)
      && (b.diagnosis.value.userApproved ==> b'.diagnosis.value.userApproved)
  }

  /** What the guarded operations keep true of every booking they produce,
      starting from a new one. Test fixtures may seed bookings that violate it;
      the operations are defined on those as well. */
  predicate Consistent(b: Booking) {
    && (b.status in {Requested, Rejected} <==> b.pickupChoice.None?)
    && (b.status in {Requested, Rejected} ==> b.diagnosis.None? && |b.progress| == 0)
    && (b.status in {Ongoing, Completed} <==> (b.diagnosis.Some? && b.diagnosis.value.userApproved))
    && (b.status == Completed <==> b.paymentRequested)
    && (b.status == Completed <==> b.paymentStatus.Some?)
    && (b.status == Completed <==> b.finalAmount.Some?)
    && (b.status == Completed <==> b.completionNotes.Some?)
    && (b.paymentStatus == Some(Paid) <==> b.paymentDate.Some?)
    && (b.status in {Pending, Ongoing, Completed} ==> |b.progress| >= 1)
    && (b.diagnosis.Some? ==> |b.progress| >= 2)
    && (b.status == Completed ==> |b.progress| >= 3)
    && (b.feedback.Some? ==>
          && b.paymentStatus == Some(Paid)
          && b.feedback.value.user == b.owner
          && b.feedback.value.servicer == b.servicer
          && b.feedback.value.booking == b.id
          && 1 <= b.feedback.value.rating <= 5)
  }
}
