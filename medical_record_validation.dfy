/**
 * Validation of medical-record requests.  Unlike the pet and owner
 * validators, every check runs: each failed check appends its message, and
 * a request with any failure is rejected with all messages joined by "; ".
 * The checks are named by `Violation`; `CreateFails` and `UpdateFails` say
 * when each one fails, `CreateViolations` and `UpdateViolations` list the
 * failures in the order the validator runs them, and the two methods build
 * the error the way the validator does.
 */
module MedicalRecordValidation {
  import opened Common
  import opened AppErrors
  import opened ErrorResponses
  import opened Formats
  import opened Records

  /** The checks, in the order the validator runs them. */
  datatype Violation =
    | PetIdRequired | OwnerIdRequired | VisitDateRequired | VisitDateFormat | VisitTypeInvalid
    | ChiefComplaintTooLong | SubjectiveTooLong | ObjectiveTooLong | AssessmentTooLong | PlanTooLong
    | DiagnosisTooLong | TreatmentTooLong | PrescriptionTooLong | NotesTooLong | SurgeryNotesTooLong
    | StatusInvalid

  function Message(v: Violation): string {
    match v
    case PetIdRequired => "pet_id is required"
    case OwnerIdRequired => "owner_id is required"
    case VisitDateRequired => "visit_date is required"
    case VisitDateFormat => "visit_date must be a valid date format (YYYY-MM-DD, YYYY-MM-DD HH:MM:SS, or RFC3339)"
    case VisitTypeInvalid => "visit_type must be '初診' or '再診'"
    case ChiefComplaintTooLong => "chief_complaint must be less than 1000 characters"
    case SubjectiveTooLong => "subjective must be less than 2000 characters"
    case ObjectiveTooLong => "objective must be less than 2000 characters"
    case AssessmentTooLong => "assessment must be less than 2000 characters"
    case PlanTooLong => "plan must be less than 2000 characters"
    case DiagnosisTooLong => "diagnosis must be less than 1000 characters"
    case TreatmentTooLong => "treatment must be less than 2000 characters"
    case PrescriptionTooLong => "prescription must be less than 2000 characters"
    case NotesTooLong => "notes must be less than 2000 characters"
    case SurgeryNotesTooLong => "surgery_notes must be less than 2000 characters"
    case StatusInvalid => "status must be '作成中' or '確定済'"
  }

  /** The whole-string pattern ^(初診|再診)$: a first or a repeat visit. */
  predicate IsVisitType(s: string) {
    s == "初診" || s == "再診"
  }

  /** The whole-string pattern ^(作成中|確定済)$: draft or finalised. */
  predicate IsRecordStatus(s: string) {
    s == "作成中" || s == "確定済"
  }

  /** Accepted by at least one of the three visit-date layouts (see Formats.VisitDateAccepted). */
  predicate HasVisitDateLayout(s: string) {
    ParseVisitDate(s).Some?
  }

  /** The byte limits on the free-text fields. */
  const ShortTextLimit := 1000
  const LongTextLimit := 2000

  /** A text longer than `limit` bytes in its UTF-8 encoding (Go's len). */
  predicate TooLong(s: string, limit: nat) {
    Utf8Len(s) > limit
  }

  /** A visit date that is not blank and matches none of the three layouts. */
  predicate BadVisitDate(s: string) {
    !IsBlank(s) && !HasVisitDateLayout(s)
  }

  /** A visit date that is given (not empty, untrimmed) and matches none of the three layouts. */
  predicate GivenBadDate(s: string) {
    s != "" && !HasVisitDateLayout(s)
  }

  /** A visit type that is given but is not one of the two visit types. */
  predicate BadVisitType(s: string) {
    s != "" && !IsVisitType(s)
  }

  /** A status that is given but is not one of the two record statuses. */
  predicate BadStatus(s: string) {
    s != "" && !IsRecordStatus(s)
  }

  /** When a create request fails check `v`. */
  predicate CreateFails(req: CreateMedicalRecordRequest, v: Violation) {
    match v
    case PetIdRequired => IsBlank(req.petId)
    case OwnerIdRequired => IsBlank(req.ownerId)
    case VisitDateRequired => IsBlank(req.visitDate)
    case VisitDateFormat => BadVisitDate(req.visitDate)
    case VisitTypeInvalid => BadVisitType(req.visitType)
    case ChiefComplaintTooLong => TooLong(req.chiefComplaint, ShortTextLimit)
    case SubjectiveTooLong => TooLong(req.subjective, LongTextLimit)
    case ObjectiveTooLong => TooLong(req.objective, LongTextLimit)
    case AssessmentTooLong => TooLong(req.assessment, LongTextLimit)
    case PlanTooLong => TooLong(req.plan, LongTextLimit)
    case DiagnosisTooLong => TooLong(req.diagnosis, ShortTextLimit)
    case TreatmentTooLong => TooLong(req.treatment, LongTextLimit)
    case PrescriptionTooLong => TooLong(req.prescription, LongTextLimit)
    case NotesTooLong => TooLong(req.notes, LongTextLimit)
    case SurgeryNotesTooLong => TooLong(req.surgeryNotes, LongTextLimit)
    case StatusInvalid => BadStatus(req.status)
  }

  /** A create request that passes every check, stated field by field. */
  predicate ValidCreate(req: CreateMedicalRecordRequest) {
    && !IsBlank(req.petId)
    && !IsBlank(req.ownerId)
    && !IsBlank(req.visitDate) && HasVisitDateLayout(req.visitDate)
    && (req.visitType == "" || IsVisitType(req.visitType))
    && !TooLong(req.chiefComplaint, ShortTextLimit)
    && !TooLong(req.diagnosis, ShortTextLimit)
    && !TooLong(req.subjective, LongTextLimit)
    && !TooLong(req.objective, LongTextLimit)
    && !TooLong(req.assessment, LongTextLimit)
    && !TooLong(req.plan, LongTextLimit)
    && !TooLong(req.treatment, LongTextLimit)
    && !TooLong(req.prescription, LongTextLimit)
    && !TooLong(req.notes, LongTextLimit)
    && !TooLong(req.surgeryNotes, LongTextLimit)
    && (req.status == "" || IsRecordStatus(req.status))
  }

  /** Position of a check in the validator's order. */
  function Ord(v: Violation): (o: nat)
    ensures o < CheckCount
  {
    match v
    case PetIdRequired => 0
    case OwnerIdRequired => 1
    case VisitDateRequired => 2
    case VisitDateFormat => 3
    case VisitTypeInvalid => 4
    case ChiefComplaintTooLong => 5
    case SubjectiveTooLong => 6
    case ObjectiveTooLong => 7
    case AssessmentTooLong => 8
    case PlanTooLong => 9
    case DiagnosisTooLong => 10
    case TreatmentTooLong => 11
    case PrescriptionTooLong => 12
    case NotesTooLong => 13
    case SurgeryNotesTooLong => 14
    case StatusInvalid => 15
  }

  const CheckCount := 16

  function CheckAt(k: nat): (v: Violation)
    requires k < CheckCount
    ensures Ord(v) == k
  {
    [PetIdRequired, OwnerIdRequired, VisitDateRequired, VisitDateFormat, VisitTypeInvalid,
     ChiefComplaintTooLong, SubjectiveTooLong, ObjectiveTooLong, AssessmentTooLong, PlanTooLong,
     DiagnosisTooLong, TreatmentTooLong, PrescriptionTooLong, NotesTooLong, SurgeryNotesTooLong,
     StatusInvalid][k]
  }

  /**
   * The failures among the first `k` checks, in check order, where
   * `outcomes[i]` tells whether check `i` failed.
   */
  function FailuresUpTo(outcomes: seq<bool>, k: nat): seq<Violation>
    requires |outcomes| == CheckCount && k <= CheckCount
  {
    if k == 0 then []
    else FailuresUpTo(outcomes, k - 1) + (if outcomes[k - 1] then [CheckAt(k - 1)] else [])
  }

  /** A check is listed exactly when it is among the first `k` and fails; the list follows check order. */
  lemma {:induction false} FailuresUpToMembers(outcomes: seq<bool>, k: nat)
    requires |outcomes| == CheckCount && k <= CheckCount
    ensures forall v :: v in FailuresUpTo(outcomes, k) <==> Ord(v) < k && outcomes[Ord(v)]
    ensures forall i, j | 0 <= i < j < |FailuresUpTo(outcomes, k)| ::
      Ord(FailuresUpTo(outcomes, k)[i]) < Ord(FailuresUpTo(outcomes, k)[j])
  {
    if k > 0 {
      FailuresUpToMembers(outcomes, k - 1);
      forall v ensures Ord(v) == k - 1 ==> v == CheckAt(k - 1) {
        if Ord(v) == k - 1 {
          match v
          case PetIdRequired =>
          case OwnerIdRequired =>
          case VisitDateRequired =>
          case VisitDateFormat =>
          case VisitTypeInvalid =>
          case ChiefComplaintTooLong =>
          case SubjectiveTooLong =>
          case ObjectiveTooLong =>
          case AssessmentTooLong =>
          case PlanTooLong =>
          case DiagnosisTooLong =>
          case TreatmentTooLong =>
          case PrescriptionTooLong =>
          case NotesTooLong =>
          case SurgeryNotesTooLong =>
          case StatusInvalid =>
        }
      }
    }
  }

  /** Over all sixteen checks, a check is listed exactly when it fails, in check order. */
  lemma FailuresUpToAll(outcomes: seq<bool>)
    requires |outcomes| == CheckCount
    ensures forall v :: v in FailuresUpTo(outcomes, CheckCount) <==> outcomes[Ord(v)]
    ensures forall i, j | 0 <= i < j < |FailuresUpTo(outcomes, CheckCount)| ::
      Ord(FailuresUpTo(outcomes, CheckCount)[i]) < Ord(FailuresUpTo(outcomes, CheckCount)[j])
  {
    FailuresUpToMembers(outcomes, CheckCount);
  }

  /** A valid request fails no check. */
  lemma ValidCreatePasses(req: CreateMedicalRecordRequest, v: Violation)
    requires ValidCreate(req)
    ensures !CreateFails(req, v)
  {
  }

  /** An invalid request fails some check: the first conjunct of the validity that is broken names it. */
  lemma InvalidCreateFails(req: CreateMedicalRecordRequest)
    requires !ValidCreate(req)
    ensures exists v :: CreateFails(req, v)
  {
    var v;
    if IsBlank(req.petId) { v := PetIdRequired; }
    else if IsBlank(req.ownerId) { v := OwnerIdRequired; }
    else if IsBlank(req.visitDate) { v := VisitDateRequired; }
    else if !HasVisitDateLayout(req.visitDate) { v := VisitDateFormat; }
    else if BadVisitType(req.visitType) { v := VisitTypeInvalid; }
    else if TooLong(req.chiefComplaint, ShortTextLimit) { v := ChiefComplaintTooLong; }
    else if TooLong(req.subjective, LongTextLimit) { v := SubjectiveTooLong; }
    else if TooLong(req.objective, LongTextLimit) { v := ObjectiveTooLong; }
    else if TooLong(req.assessment, LongTextLimit) { v := AssessmentTooLong; }
    else if TooLong(req.plan, LongTextLimit) { v := PlanTooLong; }
    else if TooLong(req.diagnosis, ShortTextLimit) { v := DiagnosisTooLong; }
    else if TooLong(req.treatment, LongTextLimit) { v := TreatmentTooLong; }
    else if TooLong(req.prescription, LongTextLimit) { v := PrescriptionTooLong; }
    else if TooLong(req.notes, LongTextLimit) { v := NotesTooLong; }
    else if TooLong(req.surgeryNotes, LongTextLimit) { v := SurgeryNotesTooLong; }
    else { v := StatusInvalid; }
    assert CreateFails(req, v);
  }

  /** The outcomes of the first `k` create checks, in check order: entry `i` tells whether check `i` failed. */
  function CreateOutcomesUpTo(req: CreateMedicalRecordRequest, k: nat): (o: seq<bool>)
    requires k <= CheckCount
    ensures |o| == k
  {
    if k == 0 then [] else CreateOutcomesUpTo(req, k - 1) + [CreateFails(req, CheckAt(k - 1))]
  }

  /** The outcomes of all sixteen create checks. */
  function CreateOutcomes(req: CreateMedicalRecordRequest): (o: seq<bool>)
    ensures |o| == CheckCount
  {
    CreateOutcomesUpTo(req, CheckCount)
  }

  /** Entry `i` of the outcomes is the verdict of check `i`. */
  lemma {:induction false} CreateOutcomesUpToMean(req: CreateMedicalRecordRequest, k: nat)
    requires k <= CheckCount
    ensures forall i | 0 <= i < k :: CreateOutcomesUpTo(req, k)[i] == CreateFails(req, CheckAt(i))
  {
    if k > 0 {
      CreateOutcomesUpToMean(req, k - 1);
    }
  }

  /** Entry `Ord(v)` of the outcomes is check `v`'s verdict. */
  lemma CreateOutcomesMean(req: CreateMedicalRecordRequest)
    ensures forall v :: CreateOutcomes(req)[Ord(v)] == CreateFails(req, v)
  {
    CreateOutcomesUpToMean(req, CheckCount);
    forall v ensures CreateOutcomes(req)[Ord(v)] == CreateFails(req, v) {
      CheckAtOrd(v);
    }
  }

  /** The violations the create validator accumulates, check by check. */
  function CreateViolations(req: CreateMedicalRecordRequest): seq<Violation> {
    FailuresUpTo(CreateOutcomes(req), CheckCount)
  }

  /** A violation is listed exactly when its check fails, and the list follows check order. */
  lemma CreateViolationsMeaning(req: CreateMedicalRecordRequest)
    ensures forall v :: v in CreateViolations(req) <==> CreateFails(req, v)
    ensures forall i, j | 0 <= i < j < |CreateViolations(req)| ::
      Ord(CreateViolations(req)[i]) < Ord(CreateViolations(req)[j])
  {
    FailuresUpToAll(CreateOutcomes(req));
    CreateOutcomesMean(req);
  }

  /** The create validator reports nothing exactly for a valid request. */
  lemma CreateViolationsEmptyIffValid(req: CreateMedicalRecordRequest)
    ensures CreateViolations(req) == [] <==> ValidCreate(req)
  {
    var vs := CreateViolations(req);
    CreateViolationsMeaning(req);
    if ValidCreate(req) {
      forall v ensures v !in vs {
        ValidCreatePasses(req, v);
      }
      EmptyIffNoMember(vs);
    } else {
      InvalidCreateFails(req);
    }
  }

  // ---------------------------------------------------------------------------
  // Update

  /** When an update request fails check `v`: absent fields are never checked. */
  predicate UpdateFails(req: UpdateMedicalRecordRequest, v: Violation) {
    match v
    case PetIdRequired => false
    case OwnerIdRequired => false
    case VisitDateRequired => false
    case VisitDateFormat => req.visitDate.Some? && GivenBadDate(req.visitDate.value)
    case VisitTypeInvalid => req.visitType.Some? && BadVisitType(req.visitType.value)
    case ChiefComplaintTooLong => Longer(req.chiefComplaint, ShortTextLimit)
    case SubjectiveTooLong => Longer(req.subjective, LongTextLimit)
    case ObjectiveTooLong => Longer(req.objective, LongTextLimit)
    case AssessmentTooLong => Longer(req.assessment, LongTextLimit)
    case PlanTooLong => Longer(req.plan, LongTextLimit)
    case DiagnosisTooLong => Longer(req.diagnosis, ShortTextLimit)
    case TreatmentTooLong => Longer(req.treatment, LongTextLimit)
    case PrescriptionTooLong => Longer(req.prescription, LongTextLimit)
    case NotesTooLong => Longer(req.notes, LongTextLimit)
    case SurgeryNotesTooLong => Longer(req.surgeryNotes, LongTextLimit)
    case StatusInvalid => req.status.Some? && !IsRecordStatus(req.status.value)
  }

  /** A present field whose UTF-8 encoding is longer than `limit` bytes. */
  predicate Longer(field: Option<string>, limit: nat) {
    field.Some? && TooLong(field.value, limit)
  }

  /** An update request that passes every check, stated field by field. */
  predicate ValidUpdate(req: UpdateMedicalRecordRequest) {
    && (req.visitDate.None? || req.visitDate.value == "" || HasVisitDateLayout(req.visitDate.value))
    && (req.visitType.None? || req.visitType.value == "" || IsVisitType(req.visitType.value))
    && !Longer(req.chiefComplaint, ShortTextLimit)
    && !Longer(req.diagnosis, ShortTextLimit)
    && !Longer(req.subjective, LongTextLimit)
    && !Longer(req.objective, LongTextLimit)
    && !Longer(req.assessment, LongTextLimit)
    && !Longer(req.plan, LongTextLimit)
    && !Longer(req.treatment, LongTextLimit)
    && !Longer(req.prescription, LongTextLimit)
    && !Longer(req.notes, LongTextLimit)
    && !Longer(req.surgeryNotes, LongTextLimit)
    && (req.status.None? || IsRecordStatus(req.status.value))
  }

  lemma ValidUpdatePasses(req: UpdateMedicalRecordRequest, v: Violation)
    requires ValidUpdate(req)
    ensures !UpdateFails(req, v)
  {
  }

  lemma InvalidUpdateFails(req: UpdateMedicalRecordRequest)
    requires !ValidUpdate(req)
    ensures exists v :: UpdateFails(req, v)
  {
    var v;
    if req.visitDate.Some? && GivenBadDate(req.visitDate.value) { v := VisitDateFormat; }
    else if req.visitType.Some? && BadVisitType(req.visitType.value) { v := VisitTypeInvalid; }
    else if Longer(req.chiefComplaint, ShortTextLimit) { v := ChiefComplaintTooLong; }
    else if Longer(req.diagnosis, ShortTextLimit) { v := DiagnosisTooLong; }
    else if Longer(req.subjective, LongTextLimit) { v := SubjectiveTooLong; }
    else if Longer(req.objective, LongTextLimit) { v := ObjectiveTooLong; }
    else if Longer(req.assessment, LongTextLimit) { v := AssessmentTooLong; }
    else if Longer(req.plan, LongTextLimit) { v := PlanTooLong; }
    else if Longer(req.treatment, LongTextLimit) { v := TreatmentTooLong; }
    else if Longer(req.prescription, LongTextLimit) { v := PrescriptionTooLong; }
    else if Longer(req.notes, LongTextLimit) { v := NotesTooLong; }
    else if Longer(req.surgeryNotes, LongTextLimit) { v := SurgeryNotesTooLong; }
    else { v := StatusInvalid; }
    assert UpdateFails(req, v);
  }

  /** The outcomes of the first `k` update checks, in check order: entry `i` tells whether check `i` failed. */
  function UpdateOutcomesUpTo(req: UpdateMedicalRecordRequest, k: nat): (o: seq<bool>)
    requires k <= CheckCount
    ensures |o| == k
  {
    if k == 0 then [] else UpdateOutcomesUpTo(req, k - 1) + [UpdateFails(req, CheckAt(k - 1))]
  }

  /** The outcomes of all sixteen update checks. */
  function UpdateOutcomes(req: UpdateMedicalRecordRequest): (o: seq<bool>)
    ensures |o| == CheckCount
  {
    UpdateOutcomesUpTo(req, CheckCount)
  }

  /** Entry `i` of the outcomes is the verdict of check `i`. */
  lemma {:induction false} UpdateOutcomesUpToMean(req: UpdateMedicalRecordRequest, k: nat)
    requires k <= CheckCount
    ensures forall i | 0 <= i < k :: UpdateOutcomesUpTo(req, k)[i] == UpdateFails(req, CheckAt(i))
  {
    if k > 0 {
      UpdateOutcomesUpToMean(req, k - 1);
    }
  }

  /** Entry `Ord(v)` of the outcomes is check `v`'s verdict. */
  lemma UpdateOutcomesMean(req: UpdateMedicalRecordRequest)
    ensures forall v :: UpdateOutcomes(req)[Ord(v)] == UpdateFails(req, v)
  {
    UpdateOutcomesUpToMean(req, CheckCount);
    forall v ensures UpdateOutcomes(req)[Ord(v)] == UpdateFails(req, v) {
      CheckAtOrd(v);
    }
  }

  /** The violations the update validator accumulates, check by check. */
  function UpdateViolations(req: UpdateMedicalRecordRequest): seq<Violation> {
    FailuresUpTo(UpdateOutcomes(req), CheckCount)
  }

  /** A violation is listed exactly when its check fails, and the list follows check order. */
  lemma UpdateViolationsMeaning(req: UpdateMedicalRecordRequest)
    ensures forall v :: v in UpdateViolations(req) <==> UpdateFails(req, v)
    ensures forall i, j | 0 <= i < j < |UpdateViolations(req)| ::
      Ord(UpdateViolations(req)[i]) < Ord(UpdateViolations(req)[j])
  {
    FailuresUpToAll(UpdateOutcomes(req));
    UpdateOutcomesMean(req);
  }

  /** The update validator reports nothing exactly for a valid request. */
  lemma UpdateViolationsEmptyIffValid(req: UpdateMedicalRecordRequest)
    ensures UpdateViolations(req) == [] <==> ValidUpdate(req)
  {
    var vs := UpdateViolations(req);
    UpdateViolationsMeaning(req);
    if ValidUpdate(req) {
      forall v ensures v !in vs {
        ValidUpdatePasses(req, v);
      }
      EmptyIffNoMember(vs);
    } else {
      InvalidUpdateFails(req);
    }
  }

  /** An update that carries no field at all is accepted. */
  lemma EmptyUpdatePasses(req: UpdateMedicalRecordRequest)
    requires req.visitDate.None? && req.visitType.None? && req.chiefComplaint.None? && req.subjective.None?
    requires req.objective.None? && req.assessment.None? && req.plan.None? && req.diagnosis.None?
    requires req.treatment.None? && req.prescription.None? && req.notes.None? && req.surgeryNotes.None?
    requires req.status.None?
    ensures UpdateViolations(req) == []
  {
    UpdateViolationsEmptyIffValid(req);
  }

  /**
   * An empty status is accepted on create (the service then defaults it) but
   * rejected on update, where only an absent status goes unchecked.
   */
  lemma EmptyStatusDiffers(c: CreateMedicalRecordRequest, u: UpdateMedicalRecordRequest)
    requires c.status == "" && u.status == Some("")
    ensures StatusInvalid !in CreateViolations(c)
    ensures StatusInvalid in UpdateViolations(u)
  {
    CreateViolationsMeaning(c);
    UpdateViolationsMeaning(u);
    assert !CreateFails(c, StatusInvalid);
    assert UpdateFails(u, StatusInvalid);
  }

  // ---------------------------------------------------------------------------
  // Building the error

  /** The messages of a list of violations, in the same order. */
  function Messages(vs: seq<Violation>): (ms: seq<string>)
    ensures |ms| == |vs| && forall i | 0 <= i < |vs| :: ms[i] == Message(vs[i])
  {
    seq(|vs|, i requires 0 <= i < |vs| => Message(vs[i]))
  }

  /** The validator's verdict on its collected messages: nil when there are none. */
  function Rejection(messages: seq<string>): (err: Option<Error>)
    ensures err.None? <==> messages == []
    ensures err.Some? ==> err.value == Plain("validation failed: " + Join(messages, "; "))
  {
    if messages == [] then None else Some(Plain("validation failed: " + Join(messages, "; ")))
  }

  /**
   * As written, the validator's rejection is a plain error: it wraps no
   * sentinel, so the handler answers a malformed request with 500 and hides
   * the messages, where every other validator's rejection answers 400.
   */
  lemma RejectionIsServerError(messages: seq<string>)
    requires messages != []
    ensures HandleError(Rejection(messages).value) == Response(500, "internal server error")
  {
    var e := Rejection(messages).value;
    assert Chain(e) == [e];
  }

  /** A create request with every field empty is rejected, and the client sees a 500. */
  lemma EmptyCreateRequestIsServerError(req: CreateMedicalRecordRequest)
    requires req.petId == ""
    ensures Messages(CreateViolations(req)) != []
    ensures HandleError(Rejection(Messages(CreateViolations(req))).value).status == 500
  {
    CreateViolationsMeaning(req);
    assert PetIdRequired in CreateViolations(req);
    RejectionIsServerError(Messages(CreateViolations(req)));
  }

  /** The evidently intended rejection: the same text, as an InvalidInput error. */
  function InvalidInputRejection(messages: seq<string>): (err: Option<Error>)
    ensures err.None? <==> messages == []
    ensures err.Some? ==> Text(err.value) == "validation failed: " + Join(messages, "; ") + ": invalid input"
    ensures err.Some? ==> HandleError(err.value) == Response(400, Text(err.value))
  {
    if messages == [] then None else Some(WrapInvalidInput("validation failed: " + Join(messages, "; ")))
  }

  /** The check at a check's own position is that check. */
  lemma CheckAtOrd(v: Violation)
    ensures CheckAt(Ord(v)) == v
  {
    match v
    case PetIdRequired =>
    case OwnerIdRequired =>
    case VisitDateRequired =>
    case VisitDateFormat =>
    case VisitTypeInvalid =>
    case ChiefComplaintTooLong =>
    case SubjectiveTooLong =>
    case ObjectiveTooLong =>
    case AssessmentTooLong =>
    case PlanTooLong =>
    case DiagnosisTooLong =>
    case TreatmentTooLong =>
    case PrescriptionTooLong =>
    case NotesTooLong =>
    case SurgeryNotesTooLong =>
    case StatusInvalid =>
  }

  /** The message a check contributes: its own when it failed, none otherwise. */
  function MessageIf(failed: bool, v: Violation): seq<string> {
    if failed then [Message(v)] else []
  }

  /** The messages of the failures among the first `k` checks, accumulated one check at a time. */
  function MessagesUpTo(outcomes: seq<bool>, k: nat): seq<string>
    requires |outcomes| == CheckCount && k <= CheckCount
  {
    if k == 0 then []
    else MessagesUpTo(outcomes, k - 1) + MessageIf(outcomes[k - 1], CheckAt(k - 1))
  }

  /** Accumulating messages check by check gives the messages of the accumulated failures. */
  lemma {:induction false} MessagesUpToIsMessages(outcomes: seq<bool>, k: nat)
    requires |outcomes| == CheckCount && k <= CheckCount
    ensures MessagesUpTo(outcomes, k) == Messages(FailuresUpTo(outcomes, k))
  {
    if k > 0 {
      MessagesUpToIsMessages(outcomes, k - 1);
      var v := CheckAt(k - 1);
      var before := FailuresUpTo(outcomes, k - 1);
      var step := if outcomes[k - 1] then [v] else [];
      assert FailuresUpTo(outcomes, k) == before + step;
      MessagesAppend(before, step);
      assert Messages(step) == MessageIf(outcomes[k - 1], v);
    }
  }

  /** The messages of two failure lists joined are their two message lists joined. */
  lemma MessagesAppend(a: seq<Violation>, b: seq<Violation>)
    ensures Messages(a + b) == Messages(a) + Messages(b)
  {
  }

  /**
   * One check of the create validator: when request `req` fails check `v`,
   * the check's message is appended to the messages of the checks before it.
   */
  method AppendCreateCheck(errors: seq<string>, req: CreateMedicalRecordRequest, v: Violation,
                           ghost outcomes: seq<bool>, ghost before: nat, ghost after: nat)
    returns (out: seq<string>)
    requires outcomes == CreateOutcomes(req)
    requires before == Ord(v) && after == before + 1
    requires errors == MessagesUpTo(outcomes, before)
    ensures out == MessagesUpTo(outcomes, after)
  {
    CreateOutcomesUpToMean(req, CheckCount);
    CheckAtOrd(v);
    assert outcomes[before] == CreateFails(req, v);
    assert MessagesUpTo(outcomes, after) == errors + MessageIf(outcomes[before], v);
    out := errors;
    if CreateFails(req, v) {
      out := out + [Message(v)];
    }
  }

  /** The create checks of the pet, the owner, the visit date and the visit type. */
  method CheckCreateVisit(errors: seq<string>, req: CreateMedicalRecordRequest) returns (out: seq<string>)
    requires errors == MessagesUpTo(CreateOutcomes(req), 0)
    ensures out == MessagesUpTo(CreateOutcomes(req), 5)
  {
    ghost var outcomes := CreateOutcomes(req);
    out := errors;
    out := AppendCreateCheck(out, req, PetIdRequired, outcomes, 0, 1);
    out := AppendCreateCheck(out, req, OwnerIdRequired, outcomes, 1, 2);
    out := AppendCreateCheck(out, req, VisitDateRequired, outcomes, 2, 3);
    out := AppendCreateCheck(out, req, VisitDateFormat, outcomes, 3, 4);
    out := AppendCreateCheck(out, req, VisitTypeInvalid, outcomes, 4, 5);
  }

  /** The create length checks of the chief complaint and the four SOAP fields. */
  method CheckCreateSoap(errors: seq<string>, req: CreateMedicalRecordRequest) returns (out: seq<string>)
    requires errors == MessagesUpTo(CreateOutcomes(req), 5)
    ensures out == MessagesUpTo(CreateOutcomes(req), 10)
  {
    ghost var outcomes := CreateOutcomes(req);
    out := errors;
    out := AppendCreateCheck(out, req, ChiefComplaintTooLong, outcomes, 5, 6);
    out := AppendCreateCheck(out, req, SubjectiveTooLong, outcomes, 6, 7);
    out := AppendCreateCheck(out, req, ObjectiveTooLong, outcomes, 7, 8);
    out := AppendCreateCheck(out, req, AssessmentTooLong, outcomes, 8, 9);
    out := AppendCreateCheck(out, req, PlanTooLong, outcomes, 9, 10);
  }

  /** The create length checks of the remaining text fields, and the status check. */
  method CheckCreateClinical(errors: seq<string>, req: CreateMedicalRecordRequest) returns (out: seq<string>)
    requires errors == MessagesUpTo(CreateOutcomes(req), 10)
    ensures out == MessagesUpTo(CreateOutcomes(req), 16)
  {
    ghost var outcomes := CreateOutcomes(req);
    out := errors;
    out := AppendCreateCheck(out, req, DiagnosisTooLong, outcomes, 10, 11);
    out := AppendCreateCheck(out, req, TreatmentTooLong, outcomes, 11, 12);
    out := AppendCreateCheck(out, req, PrescriptionTooLong, outcomes, 12, 13);
    out := AppendCreateCheck(out, req, NotesTooLong, outcomes, 13, 14);
    out := AppendCreateCheck(out, req, SurgeryNotesTooLong, outcomes, 14, 15);
    out := AppendCreateCheck(out, req, StatusInvalid, outcomes, 15, 16);
  }

  /**
   * ValidateCreateMedicalRecord: a nil request is rejected outright;
   * otherwise every check runs and appends its message on failure, and the
   * messages are joined into one error.
   */
  method ValidateCreateMedicalRecord(req: Option<CreateMedicalRecordRequest>) returns (err: Option<Error>)
    ensures req.None? ==> err == Some(Plain("request is nil"))
    ensures req.Some? ==> err == Rejection(Messages(CreateViolations(req.value)))
  {
    if req.None? {
      return Some(Plain("request is nil"));
    }
    var r := req.value;
    var errors: seq<string> := [];
    errors := CheckCreateVisit(errors, r);
    errors := CheckCreateSoap(errors, r);
    errors := CheckCreateClinical(errors, r);
    MessagesUpToIsMessages(CreateOutcomes(r), CheckCount);
    if |errors| > 0 {
      return Some(Plain("validation failed: " + Join(errors, "; ")));
    }
    return None;
  }

  /** The update validator has no required-field checks: the first three checks contribute nothing. */
  lemma NoRequiredChecksOnUpdate(req: UpdateMedicalRecordRequest)
    ensures MessagesUpTo(UpdateOutcomes(req), 3) == []
  {
    var outcomes := UpdateOutcomes(req);
    UpdateOutcomesUpToMean(req, CheckCount);
    assert !outcomes[0] && !outcomes[1] && !outcomes[2];
    assert MessagesUpTo(outcomes, 1) == [];
    assert MessagesUpTo(outcomes, 2) == [];
  }

  /**
   * One check of the update validator: when request `req` fails check `v`,
   * the check's message is appended to the messages of the checks before it.
   */
  method AppendUpdateCheck(errors: seq<string>, req: UpdateMedicalRecordRequest, v: Violation,
                           ghost outcomes: seq<bool>, ghost before: nat, ghost after: nat)
    returns (out: seq<string>)
    requires outcomes == UpdateOutcomes(req)
    requires before == Ord(v) && after == before + 1
    requires errors == MessagesUpTo(outcomes, before)
    ensures out == MessagesUpTo(outcomes, after)
  {
    UpdateOutcomesUpToMean(req, CheckCount);
    CheckAtOrd(v);
    assert outcomes[before] == UpdateFails(req, v);
    assert MessagesUpTo(outcomes, after) == errors + MessageIf(outcomes[before], v);
    out := errors;
    if UpdateFails(req, v) {
      out := out + [Message(v)];
    }
  }

  /** The update checks of the visit date and the visit type. */
  method CheckUpdateVisit(errors: seq<string>, req: UpdateMedicalRecordRequest) returns (out: seq<string>)
    requires errors == MessagesUpTo(UpdateOutcomes(req), 3)
    ensures out == MessagesUpTo(UpdateOutcomes(req), 5)
  {
    ghost var outcomes := UpdateOutcomes(req);
    out := errors;
    out := AppendUpdateCheck(out, req, VisitDateFormat, outcomes, 3, 4);
    out := AppendUpdateCheck(out, req, VisitTypeInvalid, outcomes, 4, 5);
  }

  /** The update length checks of the chief complaint and the four SOAP fields. */
  method CheckUpdateSoap(errors: seq<string>, req: UpdateMedicalRecordRequest) returns (out: seq<string>)
    requires errors == MessagesUpTo(UpdateOutcomes(req), 5)
    ensures out == MessagesUpTo(UpdateOutcomes(req), 10)
  {
    ghost var outcomes := UpdateOutcomes(req);
    out := errors;
    out := AppendUpdateCheck(out, req, ChiefComplaintTooLong, outcomes, 5, 6);
    out := AppendUpdateCheck(out, req, SubjectiveTooLong, outcomes, 6, 7);
    out := AppendUpdateCheck(out, req, ObjectiveTooLong, outcomes, 7, 8);
    out := AppendUpdateCheck(out, req, AssessmentTooLong, outcomes, 8, 9);
    out := AppendUpdateCheck(out, req, PlanTooLong, outcomes, 9, 10);
  }

  /** The update length checks of the remaining text fields, and the status check. */
  method CheckUpdateClinical(errors: seq<string>, req: UpdateMedicalRecordRequest) returns (out: seq<string>)
    requires errors == MessagesUpTo(UpdateOutcomes(req), 10)
    ensures out == MessagesUpTo(UpdateOutcomes(req), 16)
  {
    ghost var outcomes := UpdateOutcomes(req);
    out := errors;
    out := AppendUpdateCheck(out, req, DiagnosisTooLong, outcomes, 10, 11);
    out := AppendUpdateCheck(out, req, TreatmentTooLong, outcomes, 11, 12);
    out := AppendUpdateCheck(out, req, PrescriptionTooLong, outcomes, 12, 13);
    out := AppendUpdateCheck(out, req, NotesTooLong, outcomes, 13, 14);
    out := AppendUpdateCheck(out, req, SurgeryNotesTooLong, outcomes, 14, 15);
    out := AppendUpdateCheck(out, req, StatusInvalid, outcomes, 15, 16);
  }

  /**
   * ValidateUpdateMedicalRecord: a nil request is rejected outright;
   * otherwise each field that is present is checked, and the messages are
   * joined into one error. The required-field checks of creation do not run.
   */
  method ValidateUpdateMedicalRecord(req: Option<UpdateMedicalRecordRequest>) returns (err: Option<Error>)
    ensures req.None? ==> err == Some(Plain("request is nil"))
    ensures req.Some? ==> err == Rejection(Messages(UpdateViolations(req.value)))
  {
    if req.None? {
      return Some(Plain("request is nil"));
    }
    var r := req.value;
    var errors: seq<string> := [];
    NoRequiredChecksOnUpdate(r);
    errors := CheckUpdateVisit(errors, r);
    errors := CheckUpdateSoap(errors, r);
    errors := CheckUpdateClinical(errors, r);
    MessagesUpToIsMessages(UpdateOutcomes(r), CheckCount);
    if |errors| > 0 {
      return Some(Plain("validation failed: " + Join(errors, "; ")));
    }
    return None;
  }
}
