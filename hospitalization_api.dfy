/**
 * The hospitalization feature's store-backed API calls: updating a stay,
 * updating a care plan item wherever it is stored, and adding a care log to
 * the daily record of a date, creating that record when there is none.
 * The browser storage is the state of a `HospitalizationStore`; the random
 * ids the calls draw and the simulated network delay are parameters or left
 * out.
 */
module HospitalizationApi {
  import opened Common
  import opened HospitalizationTypes

  /** The plans stored for one stay: one key of the stored plan object, in the object's key order. */
  datatype PlanEntry = PlanEntry(hospitalizationId: string, plans: seq<CarePlanItem>)

  /** An object has each key once. */
  predicate DistinctKeys(entries: seq<PlanEntry>) {
    forall i, j | 0 <= i < j < |entries| :: entries[i].hospitalizationId != entries[j].hospitalizationId
  }

  // ---------------------------------------------------------------------------
  // updateHospitalization

  /** The stays after an update: the first stay with the id merged with the update; the list as it was when none has it. */
  function UpdatedStays(hs: seq<Hospitalization>, id: string, updates: HospitalizationUpdate): (r: seq<Hospitalization>)
    ensures |r| == |hs|
  {
    match FindIndex(hs, (h: Hospitalization) => h.id == id)
    case None => hs
    case Some(i) => hs[i := Merged(hs[i], updates)]
  }

  /** Only the updated stay changes; the stays before it do not have the id. */
  lemma UpdateTouchesOneStay(hs: seq<Hospitalization>, id: string, updates: HospitalizationUpdate, i: nat)
    requires i < |hs| && hs[i].id == id
    requires forall j | 0 <= j < i :: hs[j].id != id
    ensures UpdatedStays(hs, id, updates)[i] == Merged(hs[i], updates)
    ensures forall j | 0 <= j < |hs| && j != i :: UpdatedStays(hs, id, updates)[j] == hs[j]
  {
    assert FindIndex(hs, (h: Hospitalization) => h.id == id) == Some(i);
  }

  /** An update that keeps the id can be read back: looking the id up again finds the merged stay. */
  lemma UpdateThenFind(hs: seq<Hospitalization>, id: string, updates: HospitalizationUpdate)
    requires updates.id.None?
    requires exists i | 0 <= i < |hs| :: hs[i].id == id
    ensures var after := UpdatedStays(hs, id, updates);
            var i := FindIndex(after, (h: Hospitalization) => h.id == id);
            i.Some? && i == FindIndex(hs, (h: Hospitalization) => h.id == id) && after[i.value] == Merged(hs[i.value], updates)
  {
    var i := FindIndex(hs, (h: Hospitalization) => h.id == id).value;
    var after := UpdatedStays(hs, id, updates);
    assert after[i].id == id;
    assert forall j | 0 <= j < i :: after[j] == hs[j];
    assert FindIndex(after, (h: Hospitalization) => h.id == id) == Some(i);
  }

  // ---------------------------------------------------------------------------
  // updateCarePlan

  /** The entry holds a plan with the id. */
  predicate HoldsPlan(e: PlanEntry, id: string) {
    exists j | 0 <= j < |e.plans| :: e.plans[j].id == id
  }

  /** The first entry, in key order, that holds a plan with the id. */
  function PlanOwner(entries: seq<PlanEntry>, id: string): Option<nat> {
    FindIndex(entries, (e: PlanEntry) => HoldsPlan(e, id))
  }

  /** The position of the plan with the id within its list. */
  function PlanIndex(plans: seq<CarePlanItem>, id: string): Option<nat> {
    FindIndex(plans, (p: CarePlanItem) => p.id == id)
  }

  /** The outcome of updateCarePlan: the merged plan, or "Plan not found" when no entry with a non-empty key holds it first. */
  function PlanUpdateResult(entries: seq<PlanEntry>, id: string, data: CarePlanUpdate): Result<CarePlanItem, string> {
    match PlanOwner(entries, id)
    case None => Err("Plan not found")
    case Some(k) =>
      if entries[k].hospitalizationId == "" then Err("Plan not found")
      else
        var j := PlanIndex(entries[k].plans, id);
        if j.None? then Err("Plan not found")
        else Ok(MergedPlan(entries[k].plans[j.value], data))
  }

  /** The stored plans after updateCarePlan: the owner's list with the plan merged in its place, or as they were on failure. */
  function PlansAfterUpdate(entries: seq<PlanEntry>, id: string, data: CarePlanUpdate): (r: seq<PlanEntry>)
    ensures |r| == |entries|
  {
    match PlanUpdateResult(entries, id, data)
    case Err(_) => entries
    case Ok(merged) =>
      var k := PlanOwner(entries, id).value;
      var j := PlanIndex(entries[k].plans, id).value;
      entries[k := entries[k].(plans := entries[k].plans[j := merged])]
  }

  /** updateCarePlan succeeds exactly when some stay with a non-empty id holds the plan first. */
  lemma PlanUpdateSucceeds(entries: seq<PlanEntry>, id: string, data: CarePlanUpdate)
    ensures PlanUpdateResult(entries, id, data).Ok? <==>
            exists k | 0 <= k < |entries| :: HoldsPlan(entries[k], id) && entries[k].hospitalizationId != "" &&
                                               forall i | 0 <= i < k :: !HoldsPlan(entries[i], id)
  {
    match PlanOwner(entries, id)
    case None =>
    case Some(k) =>
      var j :| 0 <= j < |entries[k].plans| && entries[k].plans[j].id == id;
      assert PlanIndex(entries[k].plans, id).Some?;
      forall k' | 0 <= k' < |entries| && HoldsPlan(entries[k'], id) && forall i | 0 <= i < k' :: !HoldsPlan(entries[i], id)
        ensures k' == k
      {
      }
  }

  /**
   * A successful update rewrites only the owner's list, and only the one
   * plan in it: the list keeps its length, and every other plan its place.
   */
  lemma PlanUpdateRewritesOnlyOwner(entries: seq<PlanEntry>, id: string, data: CarePlanUpdate)
    requires PlanUpdateResult(entries, id, data).Ok?
    ensures var k := PlanOwner(entries, id).value;
            var j := PlanIndex(entries[k].plans, id).value;
            var after := PlansAfterUpdate(entries, id, data);
            && after[k].hospitalizationId == entries[k].hospitalizationId
            && |after[k].plans| == |entries[k].plans|
            && after[k].plans[j] == MergedPlan(entries[k].plans[j], data)
            && (forall j' | 0 <= j' < |entries[k].plans| && j' != j :: after[k].plans[j'] == entries[k].plans[j'])
            && (forall i | 0 <= i < |entries| && i != k :: after[i] == entries[i])
  {
  }

  /** Updating a plan no stay holds fails, and the stored plans stay as they were. */
  lemma UnknownPlanNotFound(entries: seq<PlanEntry>, id: string, data: CarePlanUpdate)
    requires forall k | 0 <= k < |entries| :: forall j | 0 <= j < |entries[k].plans| :: entries[k].plans[j].id != id
    ensures PlanUpdateResult(entries, id, data) == Err("Plan not found")
    ensures PlansAfterUpdate(entries, id, data) == entries
  {
    assert forall k | 0 <= k < |entries| :: !HoldsPlan(entries[k], id);
  }

  /**
   * The loop of updateCarePlan: the first entry, in key order, holding a plan
   * with the id, and that plan merged with the data; the walk stops there.
   */
  method FindPlan(allPlans: seq<PlanEntry>, id: string, data: CarePlanUpdate) returns (found: Option<nat>, updatedPlan: Option<CarePlanItem>)
    ensures found == PlanOwner(allPlans, id)
    ensures found.None? <==> updatedPlan.None?
    ensures found.Some? ==> (PlanIndex(allPlans[found.value].plans, id).Some? &&
            updatedPlan.value == MergedPlan(allPlans[found.value].plans[PlanIndex(allPlans[found.value].plans, id).value], data))
  {
    found := None;
    updatedPlan := None;
    var k := 0;
    while k < |allPlans|
      invariant 0 <= k <= |allPlans|
      invariant forall i | 0 <= i < k :: !HoldsPlan(allPlans[i], id)
    {
      var planIndex := PlanIndex(allPlans[k].plans, id);
      if planIndex.Some? {
        updatedPlan := Some(MergedPlan(allPlans[k].plans[planIndex.value], data));
        found := Some(k);
        assert PlanOwner(allPlans, id) == found;
        return;
      }
      k := k + 1;
    }
  }

  // ---------------------------------------------------------------------------
  // createCareLog

  /**
   * The records after a log is added on `date`: the first record of the
   * (trimmed) date gets the log appended, and, as the updated record object is
   * also written to the first position holding its id, that position holds
   * it too; with no record of that date, a new record with just the log is
   * appended.
   */
  function RecordsAfterLog(records: seq<DailyRecord>, hospitalizationId: string, targetDate: string, log: CareLog, recordId: string): (r: seq<DailyRecord>)
    ensures |records| <= |r| <= |records| + 1
  {
    match FindIndex(records, (rec: DailyRecord) => rec.date == targetDate)
    case Some(f) =>
      var updated := records[f].(careLogs := records[f].careLogs + [log]);
      var recordIdOf := records[f].id;
      var index := FindIndex(records, (rec: DailyRecord) => rec.id == recordIdOf);
      records[f := updated][index.value := updated]
    case None => records + [DailyRecord(recordId, hospitalizationId, targetDate, [], [log], [])]
  }

  /** With distinct record ids, the record of the date gets the log appended and every other record stays as it was. */
  lemma LogAppendedToRecordOfDate(records: seq<DailyRecord>, hospitalizationId: string, targetDate: string, log: CareLog, recordId: string, f: nat)
    requires forall i, j | 0 <= i < j < |records| :: records[i].id != records[j].id
    requires f < |records| && records[f].date == targetDate
    requires forall i | 0 <= i < f :: records[i].date != targetDate
    ensures |RecordsAfterLog(records, hospitalizationId, targetDate, log, recordId)| == |records|
    ensures RecordsAfterLog(records, hospitalizationId, targetDate, log, recordId)[f] == records[f].(careLogs := records[f].careLogs + [log])
    ensures forall i | 0 <= i < |records| && i != f :: RecordsAfterLog(records, hospitalizationId, targetDate, log, recordId)[i] == records[i]
  {
    assert FindIndex(records, (rec: DailyRecord) => rec.date == targetDate) == Some(f);
    var recordIdOf := records[f].id;
    assert FindIndex(records, (rec: DailyRecord) => rec.id == recordIdOf) == Some(f);
  }

  /** With no record of the date, a record of the date holding only the log is appended. */
  lemma NewRecordForNewDate(records: seq<DailyRecord>, hospitalizationId: string, targetDate: string, log: CareLog, recordId: string)
    requires forall i | 0 <= i < |records| :: records[i].date != targetDate
    ensures RecordsAfterLog(records, hospitalizationId, targetDate, log, recordId) ==
            records + [DailyRecord(recordId, hospitalizationId, targetDate, [], [log], [])]
  {
  }

  /** Whatever the records, the first record of the date afterwards ends with the new log. */
  lemma LogIsFoundByDate(records: seq<DailyRecord>, hospitalizationId: string, targetDate: string, log: CareLog, recordId: string)
    ensures var after := RecordsAfterLog(records, hospitalizationId, targetDate, log, recordId);
            var f := FindIndex(after, (rec: DailyRecord) => rec.date == targetDate);
            f.Some? && |after[f.value].careLogs| > 0 && after[f.value].careLogs[|after[f.value].careLogs| - 1] == log
  {
    var after := RecordsAfterLog(records, hospitalizationId, targetDate, log, recordId);
    match FindIndex(records, (rec: DailyRecord) => rec.date == targetDate)
    case Some(f) =>
      var updated := records[f].(careLogs := records[f].careLogs + [log]);
      var recordIdOf := records[f].id;
      var t := FindIndex(records, (rec: DailyRecord) => rec.id == recordIdOf).value;
      assert after == records[f := updated][t := updated];
      var first := if t < f then t else f;
      assert after[first] == updated;
      assert forall i | 0 <= i < first :: after[i] == records[i];
      assert FindIndex(after, (rec: DailyRecord) => rec.date == targetDate) == Some(first);
    case None =>
      assert after[|records|].date == targetDate;
      assert forall i | 0 <= i < |records| :: after[i] == records[i];
      assert FindIndex(after, (rec: DailyRecord) => rec.date == targetDate) == Some(|records|);
  }

  /** The record list update of createCareLog, on the stay's stored records. */
  method AddLog(records: seq<DailyRecord>, hospitalizationId: string, targetDate: string, log: CareLog, recordId: string)
    returns (stored: seq<DailyRecord>)
    ensures stored == RecordsAfterLog(records, hospitalizationId, targetDate, log, recordId)
  {
    stored := records;
    var found := FindIndex(stored, (rec: DailyRecord) => rec.date == targetDate);
    if found.Some? {
      var record := stored[found.value];
      record := record.(careLogs := record.careLogs + [log]);
      stored := stored[found.value := record];
      var recordIdOf := record.id;
      var index := FindIndex(records, (rec: DailyRecord) => rec.id == recordIdOf);
      assert records[found.value].id == recordIdOf;
      stored := stored[index.value := record];
    } else {
      var record := DailyRecord(recordId, hospitalizationId, targetDate, [], [log], []);
      stored := stored + [record];
    }
  }

  /** The browser storage of the hospitalization feature. */
  class HospitalizationStore {
    var hospitalizations: seq<Hospitalization>
    var planEntries: seq<PlanEntry>
    var records: map<string, seq<DailyRecord>>

    constructor (stays: seq<Hospitalization>, plans: seq<PlanEntry>, dailyRecords: map<string, seq<DailyRecord>>)
      ensures hospitalizations == stays && planEntries == plans && records == dailyRecords
    {
      hospitalizations := stays;
      planEntries := plans;
      records := dailyRecords;
    }

    /** The stored records of a stay; none when nothing is stored for it. */
    function StoredRecords(hospitalizationId: string): seq<DailyRecord>
      reads this
    {
      if hospitalizationId in records then records[hospitalizationId] else []
    }

    /** updateHospitalization: merges the update into the stored stay with the id, or fails with "Hospitalization not found". */
    method UpdateHospitalization(id: string, updates: HospitalizationUpdate) returns (r: Result<Hospitalization, string>)
      modifies this
      ensures r.Err? <==> forall i | 0 <= i < |old(hospitalizations)| :: old(hospitalizations)[i].id != id
      ensures r.Err? ==> r.error == "Hospitalization not found"
      ensures hospitalizations == UpdatedStays(old(hospitalizations), id, updates)
      ensures r.Ok? ==> exists i | 0 <= i < |old(hospitalizations)| :: old(hospitalizations)[i].id == id &&
                                   hospitalizations[i] == r.value == Merged(old(hospitalizations)[i], updates)
      ensures planEntries == old(planEntries) && records == old(records)
    {
      var currentData := hospitalizations;
      var index := FindIndex(currentData, (h: Hospitalization) => h.id == id);
      if index.None? {
        return Err("Hospitalization not found");
      }
      var updatedHospitalization := Merged(currentData[index.value], updates);
      currentData := currentData[index.value := updatedHospitalization];
      hospitalizations := currentData;
      r := Ok(updatedHospitalization);
    }

    /**
     * updateCarePlan: walks the stored plan lists in key order and merges the
     * data into the first plan with the id, stopping there; the owner's list
     * is then stored again.  An owner whose key is empty is not stored, and
     * the call fails as when no plan has the id.
     */
    method UpdateCarePlan(id: string, data: CarePlanUpdate) returns (r: Result<CarePlanItem, string>)
      requires DistinctKeys(planEntries)
      modifies this
      ensures r == PlanUpdateResult(old(planEntries), id, data)
      ensures planEntries == PlansAfterUpdate(old(planEntries), id, data)
      ensures hospitalizations == old(hospitalizations) && records == old(records)
    {
      var allPlans := planEntries;
      var found, updatedPlan := FindPlan(allPlans, id, data);
      if found.Some? && allPlans[found.value].hospitalizationId != "" && updatedPlan.Some? {
        var owner := allPlans[found.value];
        var j := PlanIndex(owner.plans, id).value;
        planEntries := allPlans[found.value := owner.(plans := owner.plans[j := updatedPlan.value])];
        return Ok(updatedPlan.value);
      }
      return Err("Plan not found");
    }

    /**
     * createCareLog: gives the data the id `logId`, adds the log to the
     * stay's record of the trimmed date, or to a new record `recordId` of that
     * date, stores the stay's records and returns the log.
     */
    method CreateCareLog(hospitalizationId: string, date: string, data: CareLogData, logId: string, recordId: string)
      returns (log: CareLog)
      modifies this
      ensures log == WithId(data, logId) && WithoutId(log) == data
      ensures records == old(records)[hospitalizationId := RecordsAfterLog(old(StoredRecords(hospitalizationId)), hospitalizationId, Trim(date), log, recordId)]
      ensures unchanged(this`hospitalizations, this`planEntries)
    {
      var stored := StoredRecords(hospitalizationId);
      var targetDate := Trim(date);
      log := CareLog(logId, data.time, data.kind, data.status, data.value, data.staff, data.notes);
      stored := AddLog(stored, hospitalizationId, targetDate, log, recordId);
      records := records[hospitalizationId := stored];
    }
  }
}
