/**
 * The adaptive day planner: for the selected day and clinic block it lays
 * out up to three bucket tasks before the block starts, one entry per
 * booked patient, and merges the two lists in chronological order.
 */
module Planner {
  import opened Common
  import opened Clock
  import opened StableSort

  /** A booked patient; an absent or empty id or time is "". */
  datatype Patient = Patient(time: string, id: string)

  /** A clinic block of the week schedule; `patients` is None when it is not an array. */
  datatype ClinicBlock = ClinicBlock(start: string, patients: Option<seq<Patient>>)

  /** A bucket-template item; `avgTime` is None when it is not a finite number. */
  datatype BucketItem = BucketItem(itemType: string, avgTime: Option<int>)

  /** A plan entry: its time, its type ("task" or "patient"), its label and where it came from. */
  datatype Entry = Entry(time: string, kind: string, labelText: string, source: string)

  // ---------------------------------------------------------------- buildPatientEntries

  /** The time a patient is shown at: its own, else the block start, else midnight. */
  function PatientTime(p: Patient, block: ClinicBlock): string
  {
    if p.time != "" then p.time else if block.start != "" then block.start else "00:00"
  }

  /** The label of the patient at `index`: its id, else "<fallback> <index + 1>". */
  function PatientLabel(p: Patient, fallback: string, index: nat): string
  {
    if p.id != "" then p.id else fallback + " " + NatToString(index + 1)
  }

  /**
   * buildPatientEntries: one "patient" entry per patient, in order; none
   * when the block has no patient array.
   */
  function PatientEntries(block: ClinicBlock, fallback: string): (r: seq<Entry>)
    ensures block.patients.None? ==> r == []
    ensures block.patients.Some? ==> |r| == |block.patients.value|
    ensures forall i :: 0 <= i < |r| ==>
      r[i].kind == "patient" && r[i].source == "schedule" && r[i].time != "" &&
      r[i].time == PatientTime(block.patients.value[i], block) &&
      r[i].labelText == PatientLabel(block.patients.value[i], fallback, i)
  {
    if block.patients.None? then []
    else
      var ps := block.patients.value;
      seq(|ps|, i requires 0 <= i < |ps| =>
        Entry(PatientTime(ps[i], block), "patient", PatientLabel(ps[i], fallback, i), "schedule"))
  }

  /** A patient without an id is labelled by its one-based slot number. */
  lemma PatientSlotLabel(block: ClinicBlock, i: nat)
    requires block.patients.Some? && i < |block.patients.value|
    requires block.patients.value[i].id == ""
    ensures PatientEntries(block, "Patient Slot")[i].labelText == "Patient Slot " + NatToString(i + 1)
  {
  }

  // ---------------------------------------------------------------- buildBucketEntries

  /** How far an item moves the cursor: its average time when positive, else 10 minutes. */
  function Increment(item: BucketItem): (n: int)
    ensures n > 0
    ensures item.avgTime.Some? && item.avgTime.value > 0 ==> n == item.avgTime.value
    ensures item.avgTime.None? ==> n == 10
  {
    if item.avgTime.Some? && item.avgTime.value > 0 then item.avgTime.value else 10
  }

  /** Half an hour before the block starts (not before midnight), or 07:00 when the start does not parse. */
  function StartMinutes(block: ClinicBlock): (m: int)
    ensures m >= 0
  {
    var start := ParseClock(block.start);
    if start.Some? then Max(start.value - 30, 0) else 420
  }

  /** The cursor at item `i`: the start, then each later item adds its own increment. */
  function CursorAt(items: seq<BucketItem>, start: int, i: nat): int
    requires i < |items|
  {
    if i == 0 then start else CursorAt(items, start, i - 1) + Increment(items[i])
  }

  function BucketEntry(item: BucketItem, index: nat, cursor: int): Entry
  {
    Entry(ToTime(cursor), "task",
          if item.itemType != "" then item.itemType else "Bucket Task " + NatToString(index + 1),
          "bucket")
  }

  /** The template items the planner uses: the first three. */
  function Taken(template: Option<seq<BucketItem>>): (items: seq<BucketItem>)
    ensures template.None? ==> items == []
    ensures template.Some? ==> |items| == Min(|template.value|, 3) && items == template.value[..|items|]
  {
    if template.None? then [] else template.value[..Min(|template.value|, 3)]
  }

  /** The entries buildBucketEntries returns. */
  function BucketPlan(template: Option<seq<BucketItem>>, block: ClinicBlock): seq<Entry>
  {
    var items := Taken(template);
    seq(|items|, i requires 0 <= i < |items| => BucketEntry(items[i], i, CursorAt(items, StartMinutes(block), i)))
  }

  /** Appending item i at the i-th cursor extends the first i entries of the plan by one. */
  lemma BucketPlanExtend(template: Option<seq<BucketItem>>, block: ClinicBlock, i: nat, entries: seq<Entry>, cursor: int)
    requires i < |Taken(template)|
    requires entries == BucketPlan(template, block)[..i]
    requires cursor == CursorAt(Taken(template), StartMinutes(block), i)
    ensures entries + [BucketEntry(Taken(template)[i], i, cursor)] == BucketPlan(template, block)[..i + 1]
  {
  }

  /** buildBucketEntries, with the cursor its map callback threads. */
  method BuildBucketEntries(block: ClinicBlock, template: Option<seq<BucketItem>>) returns (entries: seq<Entry>)
    ensures entries == BucketPlan(template, block)
  {
    if template.None? || |template.value| == 0 {
      return [];
    }
    var items := template.value[..Min(|template.value|, 3)];
    assert items == Taken(template);
    var startMinutes := StartMinutes(block);
    ghost var plan := BucketPlan(template, block);
    assert |plan| == |items|;
    var cursor := startMinutes;
    entries := [];
    var i := 0;
    while i < |items|
      invariant 0 <= i <= |items|
      invariant entries == plan[..i]
      invariant i == 0 ==> cursor == startMinutes
      invariant i > 0 ==> cursor == CursorAt(items, startMinutes, i - 1)
    {
      cursor := if i == 0 then cursor else cursor + Increment(items[i]);
      BucketPlanExtend(template, block, i, entries, cursor);
      entries := entries + [BucketEntry(items[i], i, cursor)];
      i := i + 1;
    }
  }

  /** Each later item's cursor is the previous one plus that item's own increment, so cursors strictly rise. */
  lemma {:induction false} CursorRises(items: seq<BucketItem>, start: int, i: nat, j: nat)
    requires i < j < |items|
    ensures CursorAt(items, start, i) < CursorAt(items, start, j)
    decreases j
  {
    if i < j - 1 {
      CursorRises(items, start, i, j - 1);
    }
  }

  /** A bucket entry's time reads back as its cursor while the cursor is within the day. */
  lemma EntryTimeReadsBack(item: BucketItem, index: nat, cursor: int)
    requires 0 <= cursor < 1440
    ensures ParseClock(BucketEntry(item, index, cursor).time) == Some(cursor)
  {
    ToTimeRoundTrip(cursor);
  }

  /** At most three entries, each a "task" entry from the bucket. */
  lemma BucketPlanShape(template: Option<seq<BucketItem>>, block: ClinicBlock)
    ensures |BucketPlan(template, block)| == |Taken(template)| <= 3
    ensures forall i :: 0 <= i < |BucketPlan(template, block)| ==>
      BucketPlan(template, block)[i].kind == "task" && BucketPlan(template, block)[i].source == "bucket"
  {
  }

  /** The first entry is half an hour before the block start (07:00 when that does not parse). */
  lemma BucketPlanFirst(template: Option<seq<BucketItem>>, block: ClinicBlock)
    requires |Taken(template)| > 0 && StartMinutes(block) < 1440
    ensures ParseClock(BucketPlan(template, block)[0].time) == Some(StartMinutes(block))
  {
    var items := Taken(template);
    EntryTimeReadsBack(items[0], 0, StartMinutes(block));
  }

  /** Within the day, every entry's time reads back as its cursor. */
  lemma BucketPlanTime(template: Option<seq<BucketItem>>, block: ClinicBlock, i: nat)
    requires i < |Taken(template)|
    requires CursorAt(Taken(template), StartMinutes(block), i) < 1440
    ensures ParseClock(BucketPlan(template, block)[i].time) == Some(CursorAt(Taken(template), StartMinutes(block), i))
  {
    var items := Taken(template);
    var start := StartMinutes(block);
    var c := CursorAt(items, start, i);
    assert 0 <= c by {
      if i > 0 {
        CursorRises(items, start, 0, i);
      }
    }
    assert BucketPlan(template, block)[i] == BucketEntry(items[i], i, c);
    EntryTimeReadsBack(items[i], i, c);
  }

  /**
   * Within the day, each later entry's time is the previous entry's time
   * plus its own item's increment.
   */
  lemma BucketPlanNext(template: Option<seq<BucketItem>>, block: ClinicBlock, i: nat)
    requires 0 < i < |Taken(template)|
    requires CursorAt(Taken(template), StartMinutes(block), i) < 1440
    ensures EntryMinutes(BucketPlan(template, block)[i]) ==
            EntryMinutes(BucketPlan(template, block)[i - 1]) + Increment(Taken(template)[i])
  {
    var items := Taken(template);
    var start := StartMinutes(block);
    var c1 := CursorAt(items, start, i - 1);
    var c := CursorAt(items, start, i);
    assert c == c1 + Increment(items[i]);
    BucketPlanTime(template, block, i - 1);
    BucketPlanTime(template, block, i);
  }

  /** A block start reads as its minute less half an hour, kept at or after midnight. */
  lemma StartMinutesOf(block: ClinicBlock)
    ensures ParseClock(block.start).None? ==> StartMinutes(block) == 420
    ensures ParseClock(block.start).Some? && ParseClock(block.start).value >= 30 ==>
      StartMinutes(block) + 30 == ParseClock(block.start).value
    ensures ParseClock(block.start).Some? && ParseClock(block.start).value < 30 ==> StartMinutes(block) == 0
  {
  }

  // ---------------------------------------------------------------- sortPlan

  /** An entry's minute of the day; an unparsable time sorts as midnight. */
  function EntryMinutes(e: Entry): int
  {
    var m := ParseClock(e.time);
    if m.Some? then m.value else 0
  }

  /** The descending sort key that orders entries by ascending minute. */
  function SortKey(e: Entry): int { -EntryMinutes(e) }

  /** sortPlan: a stably sorted copy, earliest first. */
  function SortPlan(items: seq<Entry>): seq<Entry>
  {
    SortDesc(items, SortKey)
  }

  /**
   * sortPlan returns a permutation of its input in non-decreasing minute
   * order, and entries at the same minute keep their input order.
   */
  lemma SortPlanCorrect(items: seq<Entry>)
    ensures multiset(SortPlan(items)) == multiset(items)
    ensures forall i, j :: 0 <= i < j < |SortPlan(items)| ==> EntryMinutes(SortPlan(items)[i]) <= EntryMinutes(SortPlan(items)[j])
    ensures forall k :: KeyFilter(SortPlan(items), SortKey, k) == KeyFilter(items, SortKey, k)
  {
    SortDescCorrect(items, SortKey);
    var r := SortPlan(items);
    forall i, j | 0 <= i < j < |r| ensures EntryMinutes(r[i]) <= EntryMinutes(r[j]) {
      assert SortKey(r[i]) >= SortKey(r[j]);
    }
    forall k ensures KeyFilter(r, SortKey, k) == KeyFilter(items, SortKey, k) {
      SortDescStable(items, SortKey, k);
    }
  }

  /** At any one minute the bucket tasks come first, then the patients, each in their own order. */
  lemma BucketBeforePatients(bucket: seq<Entry>, patients: seq<Entry>, k: int)
    ensures KeyFilter(SortPlan(bucket + patients), SortKey, k) ==
            KeyFilter(bucket, SortKey, k) + KeyFilter(patients, SortKey, k)
  {
    SortDescStable(bucket + patients, SortKey, k);
    KeyFilterAppend(bucket, patients, SortKey, k);
  }

  // ---------------------------------------------------------------- buildAdaptiveDayPlan

  /** A day or block selection that is set and not empty. */
  predicate Selected(s: Option<string>)
  {
    s.Some? && s.value != ""
  }

  /** The block the selection names in the week schedule, if both are set and it exists. */
  function SelectedBlock(day: Option<string>, blockName: Option<string>,
                         schedule: map<string, map<string, ClinicBlock>>): Option<ClinicBlock>
  {
    if !Selected(day) || !Selected(blockName) then None
    else if day.value !in schedule || blockName.value !in schedule[day.value] then None
    else Some(schedule[day.value][blockName.value])
  }

  /** The plan buildAdaptiveDayPlan returns. */
  function DayPlan(day: Option<string>, blockName: Option<string>,
                   schedule: map<string, map<string, ClinicBlock>>,
                   template: Option<seq<BucketItem>>): seq<Entry>
  {
    var block := SelectedBlock(day, blockName, schedule);
    if block.None? then []
    else SortPlan(BucketPlan(template, block.value) + PatientEntries(block.value, "Patient Slot"))
  }

  /** buildAdaptiveDayPlan, without its logging and its planReady event. */
  method BuildAdaptiveDayPlan(day: Option<string>, blockName: Option<string>,
                              schedule: map<string, map<string, ClinicBlock>>,
                              template: Option<seq<BucketItem>>) returns (plan: seq<Entry>)
    ensures plan == DayPlan(day, blockName, schedule, template)
  {
    if !Selected(day) || !Selected(blockName) {
      return [];
    }
    if day.value !in schedule || blockName.value !in schedule[day.value] {
      return [];
    }
    var block := schedule[day.value][blockName.value];
    var patients := PatientEntries(block, "Patient Slot");
    var bucketTasks := BuildBucketEntries(block, template);
    plan := SortPlan(bucketTasks + patients);
  }

  /**
   * The plan is empty exactly when no block is selected; otherwise it holds
   * exactly the (at most three) bucket entries and the patient entries.
   */
  lemma DayPlanContents(day: Option<string>, blockName: Option<string>,
                        schedule: map<string, map<string, ClinicBlock>>,
                        template: Option<seq<BucketItem>>)
    ensures SelectedBlock(day, blockName, schedule).None? ==> DayPlan(day, blockName, schedule, template) == []
    ensures SelectedBlock(day, blockName, schedule).Some? ==>
      var block := SelectedBlock(day, blockName, schedule).value;
      multiset(DayPlan(day, blockName, schedule, template)) ==
        multiset(BucketPlan(template, block) + PatientEntries(block, "Patient Slot")) &&
      |DayPlan(day, blockName, schedule, template)| ==
        |Taken(template)| + (if block.patients.Some? then |block.patients.value| else 0)
  {
    var block := SelectedBlock(day, blockName, schedule);
    if block.Some? {
      var items := BucketPlan(template, block.value) + PatientEntries(block.value, "Patient Slot");
      SortPlanCorrect(items);
      SortDescPermutes(items, SortKey);
    }
  }
}
