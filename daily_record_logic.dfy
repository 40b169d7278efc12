/**
 * The daily record view of a stay: the record of the chosen date, the tasks
 * the care plan gives for each of its timings with the care log that
 * completed each, the tasks grouped by morning, noon and night, and the
 * record's vitals, care logs and staff notes merged into one timeline, the
 * latest first.
 */
module DailyRecordLogic {
  import opened Common
  import opened HospitalizationTypes

  /** currentRecord: the first record whose date is the chosen date, surrounding spaces ignored. */
  function CurrentRecord(records: seq<DailyRecord>, currentDateStr: string): (r: Option<DailyRecord>)
    ensures r.None? <==> forall i | 0 <= i < |records| :: records[i].date != Trim(currentDateStr)
    ensures r.Some? ==> exists i | 0 <= i < |records| :: records[i] == r.value && r.value.date == Trim(currentDateStr) &&
                                                       forall j | 0 <= j < i :: records[j].date != Trim(currentDateStr)
  {
    var target := Trim(currentDateStr);
    match FindIndex(records, (rec: DailyRecord) => rec.date == target)
    case None => None
    case Some(i) => Some(records[i])
  }

  // ---------------------------------------------------------------------------
  // Tasks

  /** A log completes a task when its notes mention the plan's name, it is of the plan's type, and it was completed. */
  predicate Completes(log: CareLog, name: string, kind: string) {
    log.notes.Some? && Contains(log.notes.value, name) && log.kind == kind && log.status == "completed"
  }

  /** The first log of the record that completes the task, if there is a record. */
  function CompletingLog(record: Option<DailyRecord>, name: string, kind: string): (r: Option<CareLog>)
    ensures r.None? <==> record.None? || forall j | 0 <= j < |record.value.careLogs| :: !Completes(record.value.careLogs[j], name, kind)
    ensures r.Some? ==> r.value in record.value.careLogs && Completes(r.value, name, kind)
  {
    if record.None? then None
    else
      match FindIndex(record.value.careLogs, (log: CareLog) => Completes(log, name, kind))
      case None => None
      case Some(j) => Some(record.value.careLogs[j])
  }

  datatype Task = Task(
    planId: string,
    timing: string,
    kind: string,
    name: string,
    description: string,
    masterId: Option<string>,
    completedLog: Option<CareLog>)

  /** The task of one plan at one timing. */
  function TaskFor(plan: CarePlanItem, timing: string, record: Option<DailyRecord>): Task {
    Task(plan.id, timing, plan.kind, plan.name, plan.description, plan.masterId, CompletingLog(record, plan.name, plan.kind))
  }

  /** The tasks of one plan, one per timing, in timing order. */
  function PlanTasks(plan: CarePlanItem, record: Option<DailyRecord>): (r: seq<Task>)
    ensures |r| == |plan.timing|
    ensures forall i | 0 <= i < |r| :: r[i] == TaskFor(plan, plan.timing[i], record)
  {
    seq(|plan.timing|, i requires 0 <= i < |plan.timing| => TaskFor(plan, plan.timing[i], record))
  }

  /** The number of (plan, timing) pairs. */
  function TimingCount(plans: seq<CarePlanItem>): nat {
    if plans == [] then 0 else TimingCount(plans[..|plans| - 1]) + |plans[|plans| - 1].timing|
  }

  /**
   * tasks: the plans' tasks, plan after plan; one per (plan, timing) pair,
   * each carrying the id of a plan and one of that plan's timings.
   */
  function Tasks(plans: seq<CarePlanItem>, record: Option<DailyRecord>): (r: seq<Task>)
    ensures |r| == TimingCount(plans)
    ensures forall t | t in r :: exists k | 0 <= k < |plans| :: t.planId == plans[k].id && t.timing in plans[k].timing
  {
    if plans == [] then []
    else
      var n := |plans| - 1;
      var front := Tasks(plans[..n], record);
      var last := PlanTasks(plans[n], record);
      assert forall t | t in front + last :: exists k | 0 <= k < |plans| :: t.planId == plans[k].id && t.timing in plans[k].timing by {
        forall t | t in front + last
          ensures exists k | 0 <= k < |plans| :: t.planId == plans[k].id && t.timing in plans[k].timing
        {
          if t in front {
            var k :| 0 <= k < n && t.planId == plans[..n][k].id && t.timing in plans[..n][k].timing;
            assert plans[..n][k] == plans[k];
          } else {
            var i :| 0 <= i < |last| && last[i] == t;
            assert t.planId == plans[n].id && t.timing == plans[n].timing[i];
          }
        }
      }
      front + last
  }

  /** Every task is the task of some plan at one of its timings. */
  lemma {:induction false} TaskHasPlanTiming(plans: seq<CarePlanItem>, record: Option<DailyRecord>, t: Task)
    requires t in Tasks(plans, record)
    ensures exists k, i | 0 <= k < |plans| && 0 <= i < |plans[k].timing| :: t == TaskFor(plans[k], plans[k].timing[i], record)
  {
    var n := |plans| - 1;
    var last := PlanTasks(plans[n], record);
    if t in Tasks(plans[..n], record) {
      TaskHasPlanTiming(plans[..n], record, t);
      var k, i :| 0 <= k < n && 0 <= i < |plans[..n][k].timing| && t == TaskFor(plans[..n][k], plans[..n][k].timing[i], record);
      assert plans[k] == plans[..n][k];
    } else {
      assert t in last;
      var i :| 0 <= i < |last| && last[i] == t;
      assert t == TaskFor(plans[n], plans[n].timing[i], record);
    }
  }

  /** Every plan has a task at each of its timings. */
  lemma {:induction false} PlanTimingHasTask(plans: seq<CarePlanItem>, record: Option<DailyRecord>, k: nat, i: nat)
    requires k < |plans| && i < |plans[k].timing|
    ensures TaskFor(plans[k], plans[k].timing[i], record) in Tasks(plans, record)
  {
    var n := |plans| - 1;
    if k < n {
      PlanTimingHasTask(plans[..n], record, k, i);
      assert plans[..n][k] == plans[k];
    } else {
      assert PlanTasks(plans[n], record)[i] == TaskFor(plans[k], plans[k].timing[i], record);
    }
  }

  /** There is one task per (plan, timing) pair: exactly the tasks of some plan at one of its timings. */
  lemma TasksArePlanTimings(plans: seq<CarePlanItem>, record: Option<DailyRecord>)
    ensures |Tasks(plans, record)| == TimingCount(plans)
    ensures forall t :: t in Tasks(plans, record) <==>
              exists k, i | 0 <= k < |plans| && 0 <= i < |plans[k].timing| :: t == TaskFor(plans[k], plans[k].timing[i], record)
  {
    forall t | t in Tasks(plans, record)
      ensures exists k, i | 0 <= k < |plans| && 0 <= i < |plans[k].timing| :: t == TaskFor(plans[k], plans[k].timing[i], record)
    {
      TaskHasPlanTiming(plans, record, t);
    }
    forall k, i | 0 <= k < |plans| && 0 <= i < |plans[k].timing|
      ensures TaskFor(plans[k], plans[k].timing[i], record) in Tasks(plans, record)
    {
      PlanTimingHasTask(plans, record, k, i);
    }
  }

  /** The tasks of a list of plans followed by another are the two lists of tasks, in that order. */
  lemma {:induction false} TasksAppend(a: seq<CarePlanItem>, b: seq<CarePlanItem>, record: Option<DailyRecord>)
    ensures Tasks(a + b, record) == Tasks(a, record) + Tasks(b, record)
    decreases |b|
  {
    if b != [] {
      var n := |b| - 1;
      var ab := a + b;
      assert ab[..|ab| - 1] == a + b[..n];
      assert ab[|ab| - 1] == b[n];
      assert Tasks(ab, record) == Tasks(a + b[..n], record) + PlanTasks(b[n], record);
      assert Tasks(b, record) == Tasks(b[..n], record) + PlanTasks(b[n], record);
      TasksAppend(a, b[..n], record);
    } else {
      assert a + b == a;
    }
  }

  /** A task counts as completed exactly when the day's record has a log completing it. */
  lemma TaskCompletion(plan: CarePlanItem, timing: string, record: Option<DailyRecord>)
    ensures TaskFor(plan, timing, record).completedLog.Some? <==>
            record.Some? && exists j | 0 <= j < |record.value.careLogs| :: Completes(record.value.careLogs[j], plan.name, plan.kind)
  {
  }

  /** Without a record of the day no task is completed. */
  lemma NoRecordNothingCompleted(plans: seq<CarePlanItem>)
    ensures forall t | t in Tasks(plans, None) :: t.completedLog.None?
  {
    TasksArePlanTimings(plans, None);
  }

  // ---------------------------------------------------------------------------
  // Groups

  /** The tasks at one timing, in task order. */
  function AtTiming(tasks: seq<Task>, timing: string): (r: seq<Task>) {
    Filter(tasks, (t: Task) => t.timing == timing)
  }

  datatype GroupedTasks = GroupedTasks(morning: seq<Task>, noon: seq<Task>, night: seq<Task>)

  /** groupedTasks: the morning, noon and night tasks, each group exactly the tasks at its timing. */
  function Grouped(tasks: seq<Task>): (r: GroupedTasks)
    ensures forall t :: t in r.morning <==> t in tasks && t.timing == "morning"
    ensures forall t :: t in r.noon <==> t in tasks && t.timing == "noon"
    ensures forall t :: t in r.night <==> t in tasks && t.timing == "night"
  {
    GroupedTasks(AtTiming(tasks, "morning"), AtTiming(tasks, "noon"), AtTiming(tasks, "night"))
  }

  /** The tasks at any other timing, which no group shows. */
  function Ungrouped(tasks: seq<Task>): seq<Task> {
    Filter(tasks, (t: Task) => t.timing != "morning" && t.timing != "noon" && t.timing != "night")
  }

  /** Each task at morning, noon or night is in its own group and in no other. */
  lemma GroupsAreDisjoint(tasks: seq<Task>)
    ensures forall t | t in tasks && t.timing == "morning" :: t in Grouped(tasks).morning && t !in Grouped(tasks).noon && t !in Grouped(tasks).night
    ensures forall t | t in tasks && t.timing == "noon" :: t in Grouped(tasks).noon && t !in Grouped(tasks).morning && t !in Grouped(tasks).night
    ensures forall t | t in tasks && t.timing == "night" :: t in Grouped(tasks).night && t !in Grouped(tasks).morning && t !in Grouped(tasks).noon
  {
  }

  /** Together with the tasks at other timings, the groups account for every task once. */
  lemma {:induction false} GroupsCoverTasks(tasks: seq<Task>)
    ensures |Grouped(tasks).morning| + |Grouped(tasks).noon| + |Grouped(tasks).night| + |Ungrouped(tasks)| == |tasks|
  {
    if tasks != [] {
      var n := |tasks| - 1;
      var a := tasks[..n];
      var b := [tasks[n]];
      assert tasks == a + b;
      GroupsCoverTasks(a);
      FilterConcat(a, b, (t: Task) => t.timing == "morning");
      FilterConcat(a, b, (t: Task) => t.timing == "noon");
      FilterConcat(a, b, (t: Task) => t.timing == "night");
      FilterConcat(a, b, (t: Task) => t.timing != "morning" && t.timing != "noon" && t.timing != "night");
      OneTaskInOneGroup(tasks[n]);
    }
  }

  lemma OneTaskInOneGroup(x: Task)
    ensures |AtTiming([x], "morning")| + |AtTiming([x], "noon")| + |AtTiming([x], "night")| + |Ungrouped([x])| == 1
  {
  }

  // ---------------------------------------------------------------------------
  // Timeline

  /** One line of the timeline: a vital sign check, a care log or a staff note. */
  datatype TimelineItem =
    | VitalItem(time: string, staff: string, temperature: Option<int>, heartRate: Option<int>,
                respirationRate: Option<int>, weight: Option<int>, notes: Option<string>)
    | LogItem(time: string, logType: string, value: Option<string>, notes: Option<string>, staff: string)
    | NoteItem(time: string, content: string, staff: string)

  function VitalItems(vitals: seq<Vital>): (r: seq<TimelineItem>)
    ensures |r| == |vitals|
  {
    seq(|vitals|, i requires 0 <= i < |vitals| =>
      var v := vitals[i];
      VitalItem(v.time, v.staff, v.temperature, v.heartRate, v.respirationRate, v.weight, v.notes))
  }

  function LogItems(logs: seq<CareLog>): (r: seq<TimelineItem>)
    ensures |r| == |logs|
  {
    seq(|logs|, i requires 0 <= i < |logs| =>
      var c := logs[i];
      LogItem(c.time, c.kind, c.value, c.notes, c.staff))
  }

  function NoteItems(notes: seq<StaffNote>): (r: seq<TimelineItem>)
    ensures |r| == |notes|
  {
    seq(|notes|, i requires 0 <= i < |notes| => NoteItem(notes[i].time, notes[i].content, notes[i].staff))
  }

  /** The record's items before sorting: vitals, then logs, then notes. */
  function Unsorted(record: DailyRecord): seq<TimelineItem> {
    VitalItems(record.vitals) + LogItems(record.careLogs) + NoteItems(record.staffNotes)
  }

  /** Later first: each item's time is not before the next item's. */
  predicate LatestFirst(s: seq<TimelineItem>) {
    forall i | 0 <= i < |s| - 1 :: LexLe(s[i + 1].time, s[i].time)
  }

  /** Latest first by neighbours means latest first for every pair. */
  lemma {:induction false} LatestFirstPairs(s: seq<TimelineItem>, i: nat, j: nat)
    requires LatestFirst(s) && i <= j < |s|
    ensures LexLe(s[j].time, s[i].time)
    decreases j - i
  {
    if i < j {
      LatestFirstPairs(s, i + 1, j);
      LexLeTransitive(s[j].time, s[i + 1].time, s[i].time);
    } else {
      LexLeReflexive(s[i].time);
    }
  }

  lemma NotLaterIsEarlier(a: string, b: string)
    requires !(LexLe(a, b) && a != b)
    ensures LexLe(b, a)
  {
    LexLeTotal(a, b);
    LexLeReflexive(a);
  }

  /** `x` placed into `s` before the first item that is strictly earlier. */
  function InsertByTime(x: TimelineItem, s: seq<TimelineItem>): (r: seq<TimelineItem>)
    requires LatestFirst(s)
    ensures LatestFirst(r)
    ensures multiset(r) == multiset(s) + multiset{x}
    ensures r[0] == x || (s != [] && r[0] == s[0])
  {
    if s == [] then [x]
    else if LexLe(s[0].time, x.time) && s[0].time != x.time then
      LatestFirstCons(x, s);
      [x] + s
    else
      NotLaterIsEarlier(s[0].time, x.time);
      var rest := InsertByTime(x, s[1..]);
      assert s == [s[0]] + s[1..];
      assert LexLe(rest[0].time, s[0].time) by {
        if rest[0] != x {
          assert rest[0] == s[1];
        }
      }
      LatestFirstCons(s[0], rest);
      [s[0]] + rest
  }

  /** An item no earlier than the head of a latest-first list may go in front of it. */
  lemma LatestFirstCons(h: TimelineItem, t: seq<TimelineItem>)
    requires LatestFirst(t) && (t != [] ==> LexLe(t[0].time, h.time))
    ensures LatestFirst([h] + t)
  {
    var r := [h] + t;
    forall i | 0 <= i < |r| - 1
      ensures LexLe(r[i + 1].time, r[i].time)
    {
      if i > 0 {
        assert r[i] == t[i - 1] && r[i + 1] == t[i];
      }
    }
  }

  /** The items sorted latest first, as `sort((a, b) => b.time.localeCompare(a.time))`. */
  function SortLatestFirst(s: seq<TimelineItem>): (r: seq<TimelineItem>)
    ensures LatestFirst(r)
    ensures multiset(r) == multiset(s)
  {
    if s == [] then []
    else
      assert s == s[..|s| - 1] + [s[|s| - 1]];
      InsertByTime(s[|s| - 1], SortLatestFirst(s[..|s| - 1]))
  }

  /**
   * timelineItems: every vital, log and note of the day's record, each once,
   * the latest first; nothing without a record.
   */
  function Timeline(record: Option<DailyRecord>): (r: seq<TimelineItem>)
    ensures record.None? ==> r == []
    ensures record.Some? ==> multiset(r) == multiset(Unsorted(record.value))
    ensures record.Some? ==> |r| == |record.value.vitals| + |record.value.careLogs| + |record.value.staffNotes|
    ensures LatestFirst(r)
  {
    if record.None? then []
    else
      var items := Unsorted(record.value);
      var r := SortLatestFirst(items);
      assert |r| == |multiset(r)| == |multiset(items)| == |items|;
      r
  }

  /** The first item of the timeline is the latest of the day: no item of the record is later. */
  lemma TimelineStartsWithLatest(record: DailyRecord, item: TimelineItem)
    requires item in Unsorted(record)
    ensures Timeline(Some(record)) != [] && LexLe(item.time, Timeline(Some(record))[0].time)
  {
    var r := Timeline(Some(record));
    assert item in multiset(r);
    var j :| 0 <= j < |r| && r[j] == item;
    LatestFirstPairs(r, 0, j);
  }
}
