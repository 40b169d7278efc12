/**
 * The medical-record service: lookup, creation, partial update and deletion
 * of records held by the repository.  The repository is the `records` map
 * of a `RecordStore`, keyed by record id; the clock and the id the database
 * assigns to a new row are parameters.
 */
module MedicalRecordService {
  import opened Common
  import opened AppErrors
  import opened Formats
  import opened Records
  import opened MedicalRecordValidation

  /** generateRecordNo: "MR" followed by the Unix time in seconds. */
  function RecordNo(unixSeconds: nat): (r: string)
    ensures |r| > 2 && r[..2] == "MR"
    ensures forall i | 2 <= i < |r| :: IsDigit(r[i])
  {
    "MR" + NatToString(unixSeconds)
  }

  /** Record numbers differ exactly when they were drawn in different seconds. */
  lemma RecordNoDistinguishesSeconds(a: nat, b: nat)
    ensures RecordNo(a) == RecordNo(b) <==> a == b
  {
    if RecordNo(a) == RecordNo(b) {
      assert RecordNo(a)[2..] == NatToString(a);
      assert RecordNo(b)[2..] == NatToString(b);
      NatToStringInjective(a, b);
    }
  }

  /** parseVisitDate: the first of RFC 3339, date and time, and date that reads the text, else InvalidInput. */
  function ParseVisitDateOrFail(s: string): (r: Result<DateTime, Error>)
    ensures r.Ok? <==> ParseRfc3339(s).Some? || ParseDateTime(s).Some? || ParseDate(s).Some?
    ensures r.Ok? ==> ValidDate(r.value.year, r.value.month, r.value.day)
    ensures r.Err? ==> r.error == WrapInvalidInput("invalid date format") && IsInvalidInput(r.error)
  {
    VisitDateAccepted(s);
    match ParseVisitDate(s)
    case Some(t) => Ok(t)
    case None => Err(WrapInvalidInput("invalid date format"))
  }

  /** The stored value of a field after a partial update: the given value when present, else the current one. */
  function Overlay(current: string, given: Option<string>): (r: string)
    ensures given.None? ==> r == current
    ensures given.Some? ==> r == given.value
  {
    if given.Some? then given.value else current
  }

  /**
   * The error the repository reports for an id with no row.  It passes its
   * whole message template as the resource name, so the text reads
   * "medical record with id %s not found with id <id> not found".
   */
  function RecordNotFound(id: Uuid): (e: Error)
    ensures IsNotFound(e) && !IsInvalidInput(e)
    ensures Text(e) == "medical record with id %s not found with id " + UuidString(id) + " not found: resource not found"
  {
    WrapNotFound("medical record with id %s not found", UuidString(id))
  }

  /** The not-found error as evidently intended: the resource is named once and the id appears in its place. */
  function IntendedRecordNotFound(id: Uuid): (e: Error)
    ensures IsNotFound(e) && !IsInvalidInput(e)
    ensures Text(e) == "medical record with id " + UuidString(id) + " not found: resource not found"
  {
    WrapNotFound("medical record", UuidString(id))
  }

  /** The template's "%s" survives into the message the client receives. */
  lemma NotFoundTextKeepsPlaceholder(id: Uuid)
    ensures Contains(Text(RecordNotFound(id)), "%s")
  {
    var t := Text(RecordNotFound(id));
    assert t[23..25] == "%s";
    assert OccursAt(t, "%s", 23);
  }

  /** Every text field holds the request's value when the request carries it, and its stored value otherwise. */
  predicate TextUpdated(rec: MedicalRecord, stored: MedicalRecord, req: UpdateMedicalRecordRequest) {
    && rec.visitType == Overlay(stored.visitType, req.visitType)
    && rec.chiefComplaint == Overlay(stored.chiefComplaint, req.chiefComplaint)
    && rec.subjective == Overlay(stored.subjective, req.subjective)
    && rec.objective == Overlay(stored.objective, req.objective)
    && rec.assessment == Overlay(stored.assessment, req.assessment)
    && rec.plan == Overlay(stored.plan, req.plan)
    && rec.surgeryNotes == Overlay(stored.surgeryNotes, req.surgeryNotes)
    && rec.diagnosis == Overlay(stored.diagnosis, req.diagnosis)
    && rec.treatment == Overlay(stored.treatment, req.treatment)
    && rec.prescription == Overlay(stored.prescription, req.prescription)
    && rec.notes == Overlay(stored.notes, req.notes)
    && rec.status == Overlay(stored.status, req.status)
  }

  /** The ids, the record number and the visit date: the fields the text overlay leaves alone. */
  predicate SameKeys(a: MedicalRecord, b: MedicalRecord) {
    a.id == b.id && a.recordNo == b.recordNo && a.petId == b.petId
    && a.ownerId == b.ownerId && a.doctorId == b.doctorId && a.visitDate == b.visitDate
  }

  /** The visit type and the SOAP fields of the request laid over a record. */
  function OverlayVisitText(rec: MedicalRecord, req: UpdateMedicalRecordRequest): MedicalRecord {
    rec.(
      visitType := Overlay(rec.visitType, req.visitType),
      chiefComplaint := Overlay(rec.chiefComplaint, req.chiefComplaint),
      subjective := Overlay(rec.subjective, req.subjective),
      objective := Overlay(rec.objective, req.objective),
      assessment := Overlay(rec.assessment, req.assessment),
      plan := Overlay(rec.plan, req.plan))
  }

  /** The remaining text fields of the request laid over a record. */
  function OverlayClinicalText(rec: MedicalRecord, req: UpdateMedicalRecordRequest): MedicalRecord {
    rec.(
      surgeryNotes := Overlay(rec.surgeryNotes, req.surgeryNotes),
      diagnosis := Overlay(rec.diagnosis, req.diagnosis),
      treatment := Overlay(rec.treatment, req.treatment),
      prescription := Overlay(rec.prescription, req.prescription),
      notes := Overlay(rec.notes, req.notes),
      status := Overlay(rec.status, req.status))
  }

  /** The update request's text fields laid over a record; ids, number and date are untouched. */
  function OverlayText(rec: MedicalRecord, req: UpdateMedicalRecordRequest): (r: MedicalRecord)
    ensures SameKeys(r, rec) && TextUpdated(r, rec, req)
  {
    OverlayClinicalText(OverlayVisitText(rec, req), req)
  }

  /** Laying the same request over a record twice changes nothing the first pass did not. */
  lemma OverlayTextIdempotent(rec: MedicalRecord, req: UpdateMedicalRecordRequest)
    ensures OverlayText(OverlayText(rec, req), req) == OverlayText(rec, req)
  {
  }

  /** A request with no text fields leaves the record's text as it was. */
  lemma OverlayNothing(rec: MedicalRecord, req: UpdateMedicalRecordRequest)
    requires req.visitType.None? && req.chiefComplaint.None? && req.subjective.None? && req.objective.None?
    requires req.assessment.None? && req.plan.None? && req.surgeryNotes.None? && req.diagnosis.None?
    requires req.treatment.None? && req.prescription.None? && req.notes.None? && req.status.None?
    ensures OverlayText(rec, req) == rec
  {
  }

  /** The repository and the service over it. */
  class RecordStore {
    var records: map<Uuid, MedicalRecord>

    constructor (records: map<Uuid, MedicalRecord>)
      ensures this.records == records
    {
      this.records := records;
    }

    /** GetMedicalRecordByID: a malformed id is InvalidInput before any lookup; a missing row is NotFound. */
    function GetMedicalRecordByID(id: string): (r: Result<MedicalRecord, Error>)
      reads this
      ensures ParseUuid(id).None? ==> r == Err(WrapInvalidInput("invalid medical record ID format"))
      ensures ParseUuid(id).Some? ==> (r.Ok? <==> ParseUuid(id).value in records)
      ensures r.Ok? ==> r.value == records[ParseUuid(id).value]
      ensures r.Err? && ParseUuid(id).Some? ==> r.error == RecordNotFound(ParseUuid(id).value)
    {
      match ParseUuid(id)
      case None => Err(WrapInvalidInput("invalid medical record ID format"))
      case Some(u) => if u in records then Ok(records[u]) else Err(RecordNotFound(u))
    }

    /**
     * CreateMedicalRecord: validate, convert the ids and the visit date,
     * build the record with its number, default the visit type and the
     * status, and insert it under the id the database assigns.
     */
    method CreateMedicalRecord(req: Option<CreateMedicalRecordRequest>, now: DateTime, unixSeconds: nat, newId: Uuid)
      returns (r: Result<MedicalRecord, Error>)
      requires newId !in records
      modifies this
      ensures r.Err? ==> records == old(records)
      ensures r.Ok? ==> records == old(records)[newId := r.value] && r.value.id == newId
      ensures r.Ok? ==> req.Some? && ValidCreate(req.value)
      ensures req.Some? && !ValidCreate(req.value) ==> r.Err? && Some(r.error) == Rejection(Messages(CreateViolations(req.value)))
      ensures req.Some? && ValidCreate(req.value) ==> (r.Ok? <==> CreateConvertible(req.value))
      ensures req.Some? && ValidCreate(req.value) && r.Err? ==> Some(r.error) == CreateConversionError(req.value)
      ensures r.Ok? ==> CreatedFrom(r.value, req.value, now, unixSeconds)
    {
      var err := ValidateCreateMedicalRecord(req);
      if req.Some? {
        CreateViolationsEmptyIffValid(req.value);
      }
      if err.Some? {
        return Err(err.value);
      }
      var q := req.value;
      var keys := ConvertCreateKeys(q, now);
      if keys.Err? {
        return Err(keys.error);
      }
      var record := BuildRecord(q, keys.value, newId, unixSeconds, now);
      records := records[newId := record];
      return Ok(record);
    }

    /**
     * UpdateMedicalRecord: validate, fetch the record, overwrite exactly the
     * fields the request carries (an empty doctor id clears the doctor), and
     * save it back.
     */
    method UpdateMedicalRecord(id: string, req: Option<UpdateMedicalRecordRequest>) returns (r: Result<MedicalRecord, Error>)
      modifies this
      ensures r.Err? ==> records == old(records)
      ensures r.Ok? ==> req.Some? && ValidUpdate(req.value)
      ensures r.Ok? ==> old(GetMedicalRecordByID(id)).Ok? && ParseUuid(id).Some?
      ensures r.Ok? ==> records == old(records)[ParseUuid(id).value := r.value]
      ensures r.Ok? ==> UpdatedFrom(r.value, old(records)[ParseUuid(id).value], req.value)
      ensures req.Some? && ValidUpdate(req.value) && old(GetMedicalRecordByID(id)).Err? ==>
        r == Err(old(GetMedicalRecordByID(id)).error)
      ensures req.Some? && ValidUpdate(req.value) && old(GetMedicalRecordByID(id)).Ok? ==>
        (r.Ok? <==> UpdateConvertible(req.value))
      ensures req.Some? && ValidUpdate(req.value) && old(GetMedicalRecordByID(id)).Ok? && r.Err? ==>
        Some(r.error) == UpdateConversionError(req.value)
    {
      var err := ValidateUpdateMedicalRecord(req);
      if req.Some? {
        UpdateViolationsEmptyIffValid(req.value);
      }
      if err.Some? {
        return Err(err.value);
      }
      var q := req.value;
      var fetched := GetMedicalRecordByID(id);
      if fetched.Err? {
        return Err(fetched.error);
      }
      var keyed := AssignKeys(fetched.value, q);
      if keyed.Err? {
        return Err(keyed.error);
      }
      var record := AssignVisitText(keyed.value, q);
      record := AssignClinicalText(record, q);
      records := records[ParseUuid(id).value := record];
      return Ok(record);
    }

    /** DeleteMedicalRecord: a malformed id is InvalidInput; a missing record is the lookup's NotFound; else the row goes. */
    method DeleteMedicalRecord(id: string) returns (err: Option<Error>)
      modifies this
      ensures ParseUuid(id).None? ==> err == Some(WrapInvalidInput("invalid medical record ID format"))
      ensures ParseUuid(id).Some? && ParseUuid(id).value !in old(records) ==> err == Some(RecordNotFound(ParseUuid(id).value))
      ensures ParseUuid(id).Some? && ParseUuid(id).value in old(records) ==> err.None?
      ensures err.Some? ==> records == old(records)
      ensures err.None? ==>
        && ParseUuid(id).Some? && ParseUuid(id).value in old(records)
        && records == old(records) - {ParseUuid(id).value}
    {
      var uid := ParseUuid(id);
      if uid.None? {
        return Some(WrapInvalidInput("invalid medical record ID format"));
      }
      UuidRoundTrip(uid.value);
      var existing := GetMedicalRecordByID(UuidString(uid.value));
      if existing.Err? {
        return Some(existing.error);
      }
      records := records - {uid.value};
      return None;
    }
  }

  /** The converted ids and visit date of a create request. */
  datatype CreateKeys = CreateKeys(petId: Uuid, ownerId: Uuid, doctorId: Option<Uuid>, visitDate: DateTime)

  /**
   * The conversions of CreateMedicalRecord, in the service's order: the pet
   * id, the owner id, the visit date (the clock when none is given) and the
   * optional doctor id; the first that fails is InvalidInput.
   */
  method ConvertCreateKeys(q: CreateMedicalRecordRequest, now: DateTime) returns (r: Result<CreateKeys, Error>)
    ensures r.Ok? <==> CreateConvertible(q)
    ensures r.Err? ==> Some(r.error) == CreateConversionError(q)
    ensures r.Ok? ==> KeysOf(r.value, q, now)
  {
    var petId := ParseUuid(q.petId);
    if petId.None? {
      return Err(WrapInvalidInput("invalid pet ID format"));
    }
    var ownerId := ParseUuid(q.ownerId);
    if ownerId.None? {
      return Err(WrapInvalidInput("invalid owner ID format"));
    }
    var visitDate := now;
    if q.visitDate != "" {
      var parsed := ParseVisitDateOrFail(q.visitDate);
      if parsed.Err? {
        return Err(WrapInvalidInput("invalid visit date format"));
      }
      visitDate := parsed.value;
    }
    var doctorId: Option<Uuid> := None;
    if q.doctorId != "" {
      var parsed := ParseUuid(q.doctorId);
      if parsed.None? {
        return Err(WrapInvalidInput("invalid doctor ID format"));
      }
      doctorId := parsed;
    }
    return Ok(CreateKeys(petId.value, ownerId.value, doctorId, visitDate));
  }

  /** The converted keys of a create request, as ConvertCreateKeys promises them. */
  predicate KeysOf(k: CreateKeys, q: CreateMedicalRecordRequest, now: DateTime) {
    && ParseUuid(q.petId) == Some(k.petId) && ParseUuid(q.ownerId) == Some(k.ownerId)
    && (q.doctorId == "" <==> k.doctorId.None?)
    && (q.doctorId != "" ==> ParseUuid(q.doctorId) == k.doctorId)
    && (q.visitDate == "" ==> k.visitDate == now)
    && (q.visitDate != "" ==> ParseVisitDate(q.visitDate) == Some(k.visitDate))
  }

  /** The new record of CreateMedicalRecord: keys, number and text, then the visit type and status defaults. */
  method BuildRecord(q: CreateMedicalRecordRequest, k: CreateKeys, newId: Uuid, unixSeconds: nat, ghost now: DateTime)
    returns (record: MedicalRecord)
    requires KeysOf(k, q, now)
    ensures record.id == newId && CreatedFrom(record, q, now, unixSeconds)
  {
    record := MedicalRecord(newId, RecordNo(unixSeconds), k.petId, k.ownerId, k.doctorId, k.visitDate,
      q.visitType, q.chiefComplaint, q.subjective, q.objective, q.assessment, q.plan, q.surgeryNotes,
      q.diagnosis, q.treatment, q.prescription, q.notes, q.status);
    if record.visitType == "" {
      record := record.(visitType := "初診");
    }
    if record.status == "" {
      record := record.(status := "作成中");
    }
  }

  /** The visit type and the SOAP fields of a partial update, assigned one at a time in the service's order. */
  method AssignVisitText(record: MedicalRecord, q: UpdateMedicalRecordRequest) returns (out: MedicalRecord)
    ensures out == OverlayVisitText(record, q)
  {
    out := record;
    if q.visitType.Some? { out := out.(visitType := q.visitType.value); }
    if q.chiefComplaint.Some? { out := out.(chiefComplaint := q.chiefComplaint.value); }
    if q.subjective.Some? { out := out.(subjective := q.subjective.value); }
    if q.objective.Some? { out := out.(objective := q.objective.value); }
    if q.assessment.Some? { out := out.(assessment := q.assessment.value); }
    if q.plan.Some? { out := out.(plan := q.plan.value); }
  }

  /** The remaining text fields of a partial update, assigned one at a time in the service's order. */
  method AssignClinicalText(record: MedicalRecord, q: UpdateMedicalRecordRequest) returns (out: MedicalRecord)
    ensures out == OverlayClinicalText(record, q)
  {
    out := record;
    if q.surgeryNotes.Some? { out := out.(surgeryNotes := q.surgeryNotes.value); }
    if q.diagnosis.Some? { out := out.(diagnosis := q.diagnosis.value); }
    if q.treatment.Some? { out := out.(treatment := q.treatment.value); }
    if q.prescription.Some? { out := out.(prescription := q.prescription.value); }
    if q.notes.Some? { out := out.(notes := q.notes.value); }
    if q.status.Some? { out := out.(status := q.status.value); }
  }

  /**
   * The id and date fields of a partial update: each present one is
   * converted, failing with InvalidInput when it does not parse; an empty
   * doctor id clears the doctor.
   */
  method AssignKeys(record: MedicalRecord, q: UpdateMedicalRecordRequest) returns (r: Result<MedicalRecord, Error>)
    ensures r.Ok? ==> KeysUpdated(r.value, record, q)
    ensures r.Ok? ==> r.value == record.(petId := r.value.petId, ownerId := r.value.ownerId,
      doctorId := r.value.doctorId, visitDate := r.value.visitDate)
    ensures r.Ok? <==> UpdateConvertible(q)
    ensures r.Err? ==> Some(r.error) == UpdateConversionError(q)
  {
    var out := record;
    if q.petId.Some? {
      var petId := ParseUuid(q.petId.value);
      if petId.None? {
        return Err(WrapInvalidInput("invalid pet ID format"));
      }
      out := out.(petId := petId.value);
    }
    if q.ownerId.Some? {
      var ownerId := ParseUuid(q.ownerId.value);
      if ownerId.None? {
        return Err(WrapInvalidInput("invalid owner ID format"));
      }
      out := out.(ownerId := ownerId.value);
    }
    if q.doctorId.Some? {
      if q.doctorId.value == "" {
        out := out.(doctorId := None);
      } else {
        var doctorId := ParseUuid(q.doctorId.value);
        if doctorId.None? {
          return Err(WrapInvalidInput("invalid doctor ID format"));
        }
        out := out.(doctorId := doctorId);
      }
    }
    if q.visitDate.Some? {
      var visitDate := ParseVisitDateOrFail(q.visitDate.value);
      if visitDate.Err? {
        return Err(WrapInvalidInput("invalid visit date format"));
      }
      out := out.(visitDate := visitDate.value);
    }
    return Ok(out);
  }

  /** Each id or date the request carries holds its converted value ("" clearing the doctor); the others are stored ones. */
  predicate KeysUpdated(rec: MedicalRecord, stored: MedicalRecord, req: UpdateMedicalRecordRequest) {
    && (if req.petId.Some? then ParseUuid(req.petId.value) == Some(rec.petId) else rec.petId == stored.petId)
    && (if req.ownerId.Some? then ParseUuid(req.ownerId.value) == Some(rec.ownerId) else rec.ownerId == stored.ownerId)
    && (if req.doctorId.None? then rec.doctorId == stored.doctorId
        else if req.doctorId.value == "" then rec.doctorId.None?
        else rec.doctorId.Some? && ParseUuid(req.doctorId.value) == rec.doctorId)
    && (if req.visitDate.Some? then ParseVisitDate(req.visitDate.value) == Some(rec.visitDate)
        else rec.visitDate == stored.visitDate)
  }

  /**
   * The ids and the visit date of a create request convert: the pet and
   * owner ids parse, and a given visit date or doctor id parses too.
   */
  predicate CreateConvertible(q: CreateMedicalRecordRequest) {
    && ParseUuid(q.petId).Some?
    && ParseUuid(q.ownerId).Some?
    && (q.visitDate == "" || ParseVisitDate(q.visitDate).Some?)
    && (q.doctorId == "" || ParseUuid(q.doctorId).Some?)
  }

  /** The error of the first conversion of a create request that fails, in the service's order: pet, owner, visit date, doctor. */
  function CreateConversionError(q: CreateMedicalRecordRequest): (e: Option<Error>)
    ensures e.None? <==> CreateConvertible(q)
    ensures e.Some? ==> IsInvalidInput(e.value)
  {
    if ParseUuid(q.petId).None? then Some(WrapInvalidInput("invalid pet ID format"))
    else if ParseUuid(q.ownerId).None? then Some(WrapInvalidInput("invalid owner ID format"))
    else if q.visitDate != "" && ParseVisitDate(q.visitDate).None? then Some(WrapInvalidInput("invalid visit date format"))
    else if q.doctorId != "" && ParseUuid(q.doctorId).None? then Some(WrapInvalidInput("invalid doctor ID format"))
    else None
  }

  /** Each id and date an update request carries converts; an empty doctor id needs no conversion. */
  predicate UpdateConvertible(q: UpdateMedicalRecordRequest) {
    && (q.petId.None? || ParseUuid(q.petId.value).Some?)
    && (q.ownerId.None? || ParseUuid(q.ownerId.value).Some?)
    && (q.doctorId.None? || q.doctorId.value == "" || ParseUuid(q.doctorId.value).Some?)
    && (q.visitDate.None? || ParseVisitDate(q.visitDate.value).Some?)
  }

  /** The error of the first conversion of an update request that fails, in the service's order: pet, owner, doctor, visit date. */
  function UpdateConversionError(q: UpdateMedicalRecordRequest): (e: Option<Error>)
    ensures e.None? <==> UpdateConvertible(q)
    ensures e.Some? ==> IsInvalidInput(e.value)
  {
    if q.petId.Some? && ParseUuid(q.petId.value).None? then Some(WrapInvalidInput("invalid pet ID format"))
    else if q.ownerId.Some? && ParseUuid(q.ownerId.value).None? then Some(WrapInvalidInput("invalid owner ID format"))
    else if q.doctorId.Some? && q.doctorId.value != "" && ParseUuid(q.doctorId.value).None? then
      Some(WrapInvalidInput("invalid doctor ID format"))
    else if q.visitDate.Some? && ParseVisitDate(q.visitDate.value).None? then Some(WrapInvalidInput("invalid visit date format"))
    else None
  }

  /** A created record: converted ids and visit date, the record number, the request's text, and the two defaults. */
  predicate CreatedFrom(rec: MedicalRecord, req: CreateMedicalRecordRequest, now: DateTime, unixSeconds: nat) {
    && ParseUuid(req.petId) == Some(rec.petId)
    && (req.visitDate == "" ==> rec.visitDate == now)
    && (req.visitDate != "" ==> ParseVisitDate(req.visitDate) == Some(rec.visitDate))
    && ParseUuid(req.ownerId) == Some(rec.ownerId)
    && (req.doctorId == "" <==> rec.doctorId.None?)
    && (req.doctorId != "" ==> ParseUuid(req.doctorId) == rec.doctorId)
    && rec.recordNo == RecordNo(unixSeconds)
    && rec.visitType == (if req.visitType == "" then "初診" else req.visitType)
    && rec.status == (if req.status == "" then "作成中" else req.status)
    && rec.chiefComplaint == req.chiefComplaint && rec.subjective == req.subjective
    && rec.objective == req.objective && rec.assessment == req.assessment && rec.plan == req.plan
    && rec.surgeryNotes == req.surgeryNotes && rec.diagnosis == req.diagnosis
    && rec.treatment == req.treatment && rec.prescription == req.prescription && rec.notes == req.notes
  }

  /**
   * An updated record: every field the request carries holds the given
   * (converted) value, and every other field is the stored one.
   */
  predicate UpdatedFrom(rec: MedicalRecord, stored: MedicalRecord, req: UpdateMedicalRecordRequest) {
    rec.id == stored.id && rec.recordNo == stored.recordNo && KeysUpdated(rec, stored, req) && TextUpdated(rec, stored, req)
  }

  /**
   * A present but empty visit date passes update validation, yet no layout
   * reads it, so the service rejects the update as InvalidInput.
   */
  lemma EmptyVisitDatePassesValidationButNotParsing(req: UpdateMedicalRecordRequest)
    requires req.visitDate == Some("")
    ensures !UpdateFails(req, VisitDateFormat)
    ensures ParseVisitDateOrFail("").Err?
  {
    assert ParseDate("").None? by {
      assert RunLayout(DateLayout, "", Unset).None?;
    }
    LayoutsDisjoint("");
    assert ParseDateTime("").None? by {
      RunLayoutAppend(DateLayout, ClockSuffix, "", Unset);
    }
    assert ParseRfc3339("").None? by {
      RunLayoutAppend(DateLayout, Rfc3339Suffix, "", Unset);
    }
  }
}
