/**
 * The frontend's hospitalization entities: a stay, its care plan items and
 * its daily records with their vitals, care logs and staff notes.  Optional
 * fields are `Option`s; the literal unions of the frontend are strings.
 */
module HospitalizationTypes {
  import opened Common

  /** The stay statuses the list filters on. */
  const Active := "入院中"
  const TempDischarge := "一時帰宅"
  const Discharged := "退院済"
  const Reserved := "予約"

  datatype Hospitalization = Hospitalization(
    id: string,
    hospitalizationNo: string,
    ownerName: string,
    petName: string,
    species: string,
    hospitalizationType: string,
    startDate: string,
    endDate: string,
    status: string,
    cageId: Option<string>)

  /** A Partial<Hospitalization>: the fields an update carries. */
  datatype HospitalizationUpdate = HospitalizationUpdate(
    id: Option<string>,
    hospitalizationNo: Option<string>,
    ownerName: Option<string>,
    petName: Option<string>,
    species: Option<string>,
    hospitalizationType: Option<string>,
    startDate: Option<string>,
    endDate: Option<string>,
    status: Option<string>,
    cageId: Option<string>)

  /** An update that only moves the stay to another cage. */
  function CageUpdate(cageId: string): HospitalizationUpdate {
    HospitalizationUpdate(None, None, None, None, None, None, None, None, None, Some(cageId))
  }

  /** `{...h, ...updates}`: every field the update carries replaces the stay's. */
  function Merged(h: Hospitalization, u: HospitalizationUpdate): (r: Hospitalization)
    ensures u.cageId.Some? ==> r.cageId == u.cageId
    ensures u.cageId.None? ==> r.cageId == h.cageId
    ensures u.id.None? ==> r.id == h.id
    ensures u.status.None? ==> r.status == h.status
  {
    Hospitalization(
      u.id.GetOr(h.id), u.hospitalizationNo.GetOr(h.hospitalizationNo), u.ownerName.GetOr(h.ownerName),
      u.petName.GetOr(h.petName), u.species.GetOr(h.species), u.hospitalizationType.GetOr(h.hospitalizationType),
      u.startDate.GetOr(h.startDate), u.endDate.GetOr(h.endDate), u.status.GetOr(h.status),
      if u.cageId.Some? then u.cageId else h.cageId)
  }

  datatype CarePlanItem = CarePlanItem(
    id: string,
    hospitalizationId: string,
    kind: string,
    name: string,
    description: string,
    timing: seq<string>,
    status: string,
    notes: Option<string>,
    masterId: Option<string>,
    unitPrice: Option<int>,
    category: Option<string>)

  /** A Partial<CarePlanItem>. */
  datatype CarePlanUpdate = CarePlanUpdate(
    id: Option<string>,
    hospitalizationId: Option<string>,
    kind: Option<string>,
    name: Option<string>,
    description: Option<string>,
    timing: Option<seq<string>>,
    status: Option<string>,
    notes: Option<string>,
    masterId: Option<string>,
    unitPrice: Option<int>,
    category: Option<string>)

  /** `{...plan, ...data}`. */
  function MergedPlan(p: CarePlanItem, u: CarePlanUpdate): (r: CarePlanItem)
    ensures u.id.None? ==> r.id == p.id
    ensures u.name.Some? ==> r.name == u.name.value
  {
    CarePlanItem(
      u.id.GetOr(p.id), u.hospitalizationId.GetOr(p.hospitalizationId), u.kind.GetOr(p.kind),
      u.name.GetOr(p.name), u.description.GetOr(p.description), u.timing.GetOr(p.timing),
      u.status.GetOr(p.status),
      if u.notes.Some? then u.notes else p.notes,
      if u.masterId.Some? then u.masterId else p.masterId,
      if u.unitPrice.Some? then u.unitPrice else p.unitPrice,
      if u.category.Some? then u.category else p.category)
  }

  /** Merging an update twice is merging it once. */
  lemma MergeIdempotent(h: Hospitalization, u: HospitalizationUpdate, p: CarePlanItem, v: CarePlanUpdate)
    ensures Merged(Merged(h, u), u) == Merged(h, u)
    ensures MergedPlan(MergedPlan(p, v), v) == MergedPlan(p, v)
  {
  }

  datatype Vital = Vital(
    id: string,
    time: string,
    temperature: Option<int>,
    heartRate: Option<int>,
    respirationRate: Option<int>,
    weight: Option<int>,
    notes: Option<string>,
    staff: string)

  datatype CareLog = CareLog(
    id: string,
    time: string,
    kind: string,
    status: string,
    value: Option<string>,
    staff: string,
    notes: Option<string>)

  /** A CreateCareLogDTO: a care log before it has an id. */
  datatype CareLogData = CareLogData(
    time: string,
    kind: string,
    status: string,
    value: Option<string>,
    staff: string,
    notes: Option<string>)

  /** `{...data, id}`. */
  function WithId(data: CareLogData, id: string): (log: CareLog)
    ensures log.id == id
  {
    CareLog(id, data.time, data.kind, data.status, data.value, data.staff, data.notes)
  }

  /** The data of a log, its id left out. */
  function WithoutId(log: CareLog): CareLogData {
    CareLogData(log.time, log.kind, log.status, log.value, log.staff, log.notes)
  }

  /** Giving data an id and taking it away again gives back the data. */
  lemma WithIdRoundTrip(data: CareLogData, id: string)
    ensures WithoutId(WithId(data, id)) == data
  {
  }

  datatype StaffNote = StaffNote(id: string, time: string, content: string, staff: string)

  datatype DailyRecord = DailyRecord(
    id: string,
    hospitalizationId: string,
    date: string,
    vitals: seq<Vital>,
    careLogs: seq<CareLog>,
    staffNotes: seq<StaffNote>)
}
