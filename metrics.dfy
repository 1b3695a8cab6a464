/**
 * The `GET /metrics` handler of kanban/routes/board.js: item tallies, cycle times, the
 * per-stage totals and counts over completed items, and throughput per completion day.
 * Each loop of the handler is a method proved against a function of the board.
 */
module Metrics {
  import opened Wrappers
  import opened BoardTypes
  import Data

  // ---------------------------------------------------------------------------
  // Gathering
  // ---------------------------------------------------------------------------

  /** Every item of the board, column after column. */
  function AllItems(columns: seq<Column>): seq<Item> {
    if columns == [] then [] else AllItems(columns[..|columns| - 1]) + columns[|columns| - 1].items
  }

  /** The items of the columns whose id is `done`, in board order. */
  function CompletedItems(columns: seq<Column>): seq<Item> {
    if columns == [] then []
    else CompletedItems(columns[..|columns| - 1]) + (if columns[|columns| - 1].id == "done" then columns[|columns| - 1].items else [])
  }

  /** The gathered list has one entry per item on the board. */
  lemma {:induction false} AllItemsCount(columns: seq<Column>)
    ensures |AllItems(columns)| == ItemCount(columns)
  {
    if columns != [] {
      var n := |columns|;
      AllItemsCount(columns[..n - 1]);
      ItemCountSnoc(columns[..n - 1], columns[n - 1]);
      assert columns[..n - 1] + [columns[n - 1]] == columns;
    }
  }

  lemma {:induction false} ItemCountSnoc(columns: seq<Column>, last: Column)
    ensures ItemCount(columns + [last]) == ItemCount(columns) + |last.items|
  {
    if columns == [] {
      assert ([] + [last])[1..] == [];
    } else {
      assert (columns + [last])[1..] == columns[1..] + [last];
      ItemCountSnoc(columns[1..], last);
    }
  }

  /** The two nested `for` loops: all items, and the items of `done`. */
  method GatherItems(columns: seq<Column>) returns (allItems: seq<Item>, completed: seq<Item>)
    ensures allItems == AllItems(columns) && completed == CompletedItems(columns)
    ensures |allItems| == ItemCount(columns)
  {
    allItems, completed := [], [];
    var c := 0;
    while c < |columns|
      invariant 0 <= c <= |columns|
      invariant allItems == AllItems(columns[..c]) && completed == CompletedItems(columns[..c])
    {
      var col := columns[c];
      var j := 0;
      while j < |col.items|
        invariant 0 <= j <= |col.items|
        invariant allItems == AllItems(columns[..c]) + col.items[..j]
        invariant completed == CompletedItems(columns[..c]) + (if col.id == "done" then col.items[..j] else [])
      {
        allItems := allItems + [col.items[j]];
        if col.id == "done" {
          completed := completed + [col.items[j]];
        }
        j := j + 1;
      }
      assert columns[..c + 1][..c] == columns[..c];
      assert col.items[..j] == col.items;
      c := c + 1;
    }
    assert columns[..c] == columns;
    AllItemsCount(columns);
  }

  /** `columns.find(c => c.id === id)?.items.length || 0`. */
  function ColumnSize(columns: seq<Column>, id: string): (n: nat)
    ensures (forall k :: 0 <= k < |columns| ==> columns[k].id != id) ==> n == 0
    ensures forall k :: 0 <= k < |columns| && columns[k].id == id && (forall j :: 0 <= j < k ==> columns[j].id != id)
                        ==> n == |columns[k].items|
  {
    if columns == [] then 0
    else if columns[0].id == id then |columns[0].items|
    else
      assert forall k :: 1 <= k < |columns| ==> columns[k] == columns[1..][k - 1];
      ColumnSize(columns[1..], id)
  }

  /** `tasksByColumn[col.id] = col.items.length` for each column in order; a later duplicate id overwrites. */
  function TasksByColumn(columns: seq<Column>): (m: map<string, nat>)
    ensures forall id :: id in m <==> exists k :: 0 <= k < |columns| && columns[k].id == id
  {
    if columns == [] then map[]
    else
      var n := |columns|;
      var m := TasksByColumn(columns[..n - 1]);
      assert forall k :: 0 <= k < n - 1 ==> columns[..n - 1][k] == columns[k];
      m[columns[n - 1].id := |columns[n - 1].items|]
  }

  /** Each column's entry is the size of the last column with that id. */
  lemma {:induction false} TasksByColumnSizes(columns: seq<Column>, k: nat)
    requires k < |columns| && forall j :: k < j < |columns| ==> columns[j].id != columns[k].id
    ensures TasksByColumn(columns)[columns[k].id] == |columns[k].items|
  {
    var n := |columns|;
    if k < n - 1 {
      TasksByColumnSizes(columns[..n - 1], k);
    }
  }

  method ColumnSizes(columns: seq<Column>) returns (m: map<string, nat>)
    ensures m == TasksByColumn(columns)
  {
    m := map[];
    var c := 0;
    while c < |columns|
      invariant 0 <= c <= |columns|
      invariant m == TasksByColumn(columns[..c])
    {
      assert columns[..c + 1][..c] == columns[..c];
      m := m[columns[c].id := |columns[c].items|];
      c := c + 1;
    }
    assert columns[..c] == columns;
  }

  // ---------------------------------------------------------------------------
  // Assignees
  // ---------------------------------------------------------------------------

  /** The items whose `assignee` is exactly `who`; AssigneeCounts ties it to the loop. */
  function CountAssigned(items: seq<Item>, who: string): (n: nat)
    ensures n <= |items|
  {
    if items == [] then 0
    else CountAssigned(items[..|items| - 1], who) + (if items[|items| - 1].Get(Assignee) == Str(who) then 1 else 0)
  }

  /** The items assigned to neither `kenny` nor `jimmy`; AssigneesPartition gives its value. */
  function CountUnassigned(items: seq<Item>): (n: nat)
    ensures n <= |items|
  {
    if items == [] then 0
    else
      var a := items[|items| - 1].Get(Assignee);
      CountUnassigned(items[..|items| - 1]) + (if a != Str("kenny") && a != Str("jimmy") then 1 else 0)
  }

  /** The three assignee buckets split the items: every item lands in exactly one. */
  lemma {:induction false} AssigneesPartition(items: seq<Item>)
    ensures CountAssigned(items, "kenny") + CountAssigned(items, "jimmy") + CountUnassigned(items) == |items|
  {
    if items != [] {
      AssigneesPartition(items[..|items| - 1]);
    }
  }

  method AssigneeCounts(items: seq<Item>) returns (kenny: nat, jimmy: nat, unassigned: nat)
    ensures kenny == CountAssigned(items, "kenny") && jimmy == CountAssigned(items, "jimmy")
    ensures unassigned == CountUnassigned(items)
    ensures kenny + jimmy + unassigned == |items|
  {
    kenny, jimmy, unassigned := 0, 0, 0;
    for k := 0 to |items|
      invariant kenny == CountAssigned(items[..k], "kenny") && jimmy == CountAssigned(items[..k], "jimmy")
      invariant unassigned == CountUnassigned(items[..k])
    {
      assert items[..k + 1][..k] == items[..k];
      var a := items[k].Get(Assignee);
      if a == Str("kenny") {
        kenny := kenny + 1;
      } else if a == Str("jimmy") {
        jimmy := jimmy + 1;
      } else {
        unassigned := unassigned + 1;
      }
    }
    assert items[..|items|] == items;
    AssigneesPartition(items);
  }

  // ---------------------------------------------------------------------------
  // Cycle times
  // ---------------------------------------------------------------------------

  datatype CycleTime = CycleTime(id: string, title: JsStr, cycleTime: int)

  /** One entry per completed item that has both a `todo` and a `done` entry, in order; see CycleTimesFromItems. */
  function CycleTimes(items: seq<Item>): (r: seq<CycleTime>)
    ensures |r| <= |items|
  {
    if items == [] then []
    else
      var it := items[|items| - 1];
      var ct := Data.CalculateCycleTime(it.stageHistory);
      CycleTimes(items[..|items| - 1]) + (if ct.Some? then [CycleTime(it.id, it.Get(Title), ct.value)] else [])
  }

  /** Items without a full `todo`-to-`done` history contribute nothing; each entry is its item's cycle time. */
  lemma {:induction false} CycleTimesFromItems(items: seq<Item>)
    ensures forall e :: e in CycleTimes(items) ==>
      exists k :: 0 <= k < |items| && items[k].id == e.id &&
        Data.CalculateCycleTime(items[k].stageHistory) == Some(e.cycleTime)
    ensures (forall k :: 0 <= k < |items| ==> Data.CalculateCycleTime(items[k].stageHistory).None?) ==> CycleTimes(items) == []
  {
    if items != [] {
      var front := items[..|items| - 1];
      CycleTimesFromItems(front);
      forall e | e in CycleTimes(items)
        ensures exists k :: 0 <= k < |items| && items[k].id == e.id && Data.CalculateCycleTime(items[k].stageHistory) == Some(e.cycleTime)
      {
        if e in CycleTimes(front) {
          var k :| 0 <= k < |front| && front[k].id == e.id && Data.CalculateCycleTime(front[k].stageHistory) == Some(e.cycleTime);
          assert items[k] == front[k];
        } else {
          assert items[|items| - 1].id == e.id;
        }
      }
      if forall k :: 0 <= k < |items| ==> Data.CalculateCycleTime(items[k].stageHistory).None? {
        assert forall k :: 0 <= k < |front| ==> front[k] == items[k];
      }
    }
  }

  /** `cycleTimes.reduce((sum, ct) => sum + ct.cycleTime, 0)`. */
  function SumCycleTimes(cts: seq<CycleTime>): int {
    if cts == [] then 0 else SumCycleTimes(cts[..|cts| - 1]) + cts[|cts| - 1].cycleTime
  }

  // ---------------------------------------------------------------------------
  // Time per stage
  // ---------------------------------------------------------------------------

  /** True when the item's stage history has an entry for the stage (a key of its stage times). */
  predicate Visited(it: Item, stage: string) {
    stage in Data.VisitedColumns(it.stageHistory, |it.stageHistory|)
  }

  /** The item's time in the stage, the value `calculateStageTime` gives it. */
  function StageTime(it: Item, stage: string, now: int): int {
    Data.TimeIn(it.stageHistory, stage, now, |it.stageHistory|)
  }

  /** The summed time in a stage over the items that visited it. */
  function StageTotal(items: seq<Item>, stage: string, now: int): int {
    if items == [] then 0
    else
      var it := items[|items| - 1];
      StageTotal(items[..|items| - 1], stage, now) + (if Visited(it, stage) then StageTime(it, stage, now) else 0)
  }

  /** The number of items that visited a stage; StageCountCountsVisits and StageStep give its value. */
  function StageCount(items: seq<Item>, stage: string): (n: nat)
    ensures n <= |items|
  {
    if items == [] then 0
    else StageCount(items[..|items| - 1], stage) + (if Visited(items[|items| - 1], stage) then 1 else 0)
  }

  /** Every item visiting a stage adds one to its count, whatever time it spent there. */
  lemma {:induction false} StageCountCountsVisits(items: seq<Item>, stage: string)
    ensures (forall k :: 0 <= k < |items| ==> Visited(items[k], stage)) ==> StageCount(items, stage) == |items|
    ensures (forall k :: 0 <= k < |items| ==> !Visited(items[k], stage)) ==> StageCount(items, stage) == 0
  {
    if items != [] {
      var front := items[..|items| - 1];
      StageCountCountsVisits(front, stage);
      assert forall k :: 0 <= k < |front| ==> front[k] == items[k];
    }
  }

  /**
   * The accumulation as written: a running total that is zero (falsy) is reset together
   * with its count before the item's time is added.
   */
  function StageAggregateAsWritten(items: seq<Item>, stage: string, now: int): (r: (int, nat)) {
    if items == [] then (0, 0)
    else
      var it := items[|items| - 1];
      var (total, count) := StageAggregateAsWritten(items[..|items| - 1], stage, now);
      if !Visited(it, stage) then (total, count)
      else if total == 0 then (StageTime(it, stage, now), 1)
      else (total + StageTime(it, stage, now), count + 1)
  }

  /** Two completed items that each spent no time in `todo`. */
  function ZeroTimeItem(id: string): Item {
    Item(id, 1, map[], ["needs-triage"], 0, [], [], [StageEntry("todo", 0), StageEntry("done", 0)])
  }

  /**
   * As written, the second item's visit resets the count of the first: two items reach
   * `todo` but the count says one.
   */
  lemma AsWrittenCountIsLow()
    ensures var items := [ZeroTimeItem("item-a"), ZeroTimeItem("item-b")];
      StageAggregateAsWritten(items, "todo", 0) == (0, 1) && StageCount(items, "todo") == 2
  {
    var it := ZeroTimeItem("item-a");
    var h := it.stageHistory;
    assert Data.VisitedColumns(h, 1) == ["todo"];
    assert Data.VisitedColumns(h, 2) == ["todo", "done"];
    assert Visited(it, "todo");
    assert Data.TimeIn(h, "todo", 0, 1) == 0;
    assert Data.TimeIn(h, "todo", 0, 2) == 0;
    assert StageTime(it, "todo", 0) == 0;
    var items := [it, ZeroTimeItem("item-b")];
    assert items[..1] == [it];
    assert [it][..0] == [];
  }

  /** The running totals and counts of the per-stage loop after the given items. */
  ghost predicate StageMaps(totals: map<string, int>, counts: map<string, nat>, items: seq<Item>, now: int) {
    && (forall s :: s in totals <==> StageCount(items, s) > 0)
    && (forall s :: s in counts <==> s in totals)
    && (forall s :: s in totals ==> totals[s] == StageTotal(items, s, now) && counts[s] == StageCount(items, s))
  }

  /** A stage missing from the maps has not been seen, so its total so far is zero. */
  lemma {:induction false} UnseenStageTotal(items: seq<Item>, stage: string, now: int)
    requires StageCount(items, stage) == 0
    ensures StageTotal(items, stage, now) == 0
  {
    if items != [] {
      UnseenStageTotal(items[..|items| - 1], stage, now);
    }
  }

  /** Adding one item changes the aggregates of the stages it visited, and only those. */
  lemma StageStep(items: seq<Item>, it: Item, now: int)
    ensures forall s :: StageTotal(items + [it], s, now) == StageTotal(items, s, now) + (if Visited(it, s) then StageTime(it, s, now) else 0)
    ensures forall s :: StageCount(items + [it], s) == StageCount(items, s) + (if Visited(it, s) then 1 else 0)
  {
    assert (items + [it])[..|items|] == items;
  }

  /**
   * Part way through one item's stages: the stages in `done` already include the item,
   * the others do not yet.
   */
  ghost predicate PartialStageMaps(totals: map<string, int>, counts: map<string, nat>, items: seq<Item>, it: Item, done: seq<string>, now: int) {
    && (forall s :: s in totals <==> StageCount(items, s) > 0 || s in done)
    && (forall s :: s in counts <==> s in totals)
    && (forall s :: s in totals && s in done ==>
          totals[s] == StageTotal(items + [it], s, now) && counts[s] == StageCount(items + [it], s))
    && (forall s :: s in totals && s !in done ==>
          totals[s] == StageTotal(items, s, now) && counts[s] == StageCount(items, s))
  }

  /** Once every visited stage is done, the maps are those of the longer item list. */
  lemma PartialStageMapsDone(totals: map<string, int>, counts: map<string, nat>, items: seq<Item>, it: Item, now: int)
    requires PartialStageMaps(totals, counts, items, it, Data.VisitedColumns(it.stageHistory, |it.stageHistory|), now)
    ensures StageMaps(totals, counts, items + [it], now)
  {
    StageStep(items, it, now);
  }

  /** One pass of the inner loop: adds the item's time in `stage` to its total and counts it. */
  method AddStage(totals0: map<string, int>, counts0: map<string, nat>, ghost items: seq<Item>, it: Item,
                  stage: string, time: int, ghost done: seq<string>, now: int)
    returns (totals: map<string, int>, counts: map<string, nat>)
    requires PartialStageMaps(totals0, counts0, items, it, done, now)
    requires stage !in done && Visited(it, stage) && time == StageTime(it, stage, now)
    ensures PartialStageMaps(totals, counts, items, it, done + [stage], now)
  {
    StageStep(items, it, now);
    // A stage not seen before starts from zero.
    var total, count := 0, 0;
    if stage in totals0 {
      total, count := totals0[stage], counts0[stage];
    } else {
      UnseenStageTotal(items, stage, now);
    }
    totals := totals0[stage := total + time];
    counts := counts0[stage := count + 1];
  }

  /** The inner loop over one item's stage times. */
  method AddItemStages(totals0: map<string, int>, counts0: map<string, nat>, ghost items: seq<Item>, it: Item, now: int)
    returns (totals: map<string, int>, counts: map<string, nat>)
    requires StageMaps(totals0, counts0, items, now)
    ensures StageMaps(totals, counts, items + [it], now)
  {
    totals, counts := totals0, counts0;
    var stageTimes := Data.CalculateStageTime(it.stageHistory, now);
    var cols := Data.VisitedColumns(it.stageHistory, |it.stageHistory|);
    Data.VisitedColumnsNoRepeats(it.stageHistory, |it.stageHistory|);
    assert cols[..0] == [];
    for j := 0 to |cols|
      invariant PartialStageMaps(totals, counts, items, it, cols[..j], now)
    {
      var stage := cols[j];
      assert stage !in cols[..j];
      assert cols[..j + 1] == cols[..j] + [stage];
      totals, counts := AddStage(totals, counts, items, it, stage, stageTimes[stage], cols[..j], now);
    }
    assert cols[..|cols|] == cols;
    PartialStageMapsDone(totals, counts, items, it, now);
  }

  /**
   * The per-stage loop, with a missing stage started from zero. Stage totals and counts
   * are the sums over the items that visited the stage.
   */
  method StageAggregates(items: seq<Item>, now: int) returns (totals: map<string, int>, counts: map<string, nat>)
    ensures StageMaps(totals, counts, items, now)
  {
    totals, counts := map[], map[];
    for k := 0 to |items|
      invariant StageMaps(totals, counts, items[..k], now)
    {
      assert items[..k + 1] == items[..k] + [items[k]];
      totals, counts := AddItemStages(totals, counts, items[..k], items[k], now);
    }
    assert items[..|items|] == items;
  }

  // ---------------------------------------------------------------------------
  // Throughput
  // ---------------------------------------------------------------------------

  const DayMs := 86400000

  /** The UTC day number of the item's first `done` entry: the date part of its ISO timestamp. */
  function DoneDay(it: Item): Option<int> {
    var e := Data.FirstEntry(it.stageHistory, "done");
    if e.Some? then Some(e.value.enteredAt / DayMs) else None
  }

  /** The number of items completed on a day; DoneOnStep and Throughput give its value. */
  function DoneOn(items: seq<Item>, day: int): (n: nat)
    ensures n <= |items|
  {
    if items == [] then 0
    else DoneOn(items[..|items| - 1], day) + (if DoneDay(items[|items| - 1]) == Some(day) then 1 else 0)
  }

  /** One more item adds one to its own day's count and nothing to the others. */
  lemma DoneOnStep(items: seq<Item>, k: nat)
    requires k < |items|
    ensures forall d :: DoneOn(items[..k + 1], d) == DoneOn(items[..k], d) + (if DoneDay(items[k]) == Some(d) then 1 else 0)
  {
    assert items[..k + 1][..k] == items[..k];
  }

  /** `throughputByDay[day] = (throughputByDay[day] || 0) + 1`. */
  method Throughput(items: seq<Item>) returns (byDay: map<int, nat>)
    ensures forall d :: d in byDay <==> DoneOn(items, d) > 0
    ensures forall d :: d in byDay ==> byDay[d] == DoneOn(items, d)
  {
    byDay := map[];
    for k := 0 to |items|
      invariant forall d :: d in byDay <==> DoneOn(items[..k], d) > 0
      invariant forall d :: d in byDay ==> byDay[d] == DoneOn(items[..k], d)
    {
      DoneOnStep(items, k);
      var day := DoneDay(items[k]);
      if day.Some? {
        var before := if day.value in byDay then byDay[day.value] else 0;
        byDay := byDay[day.value := before + 1];
      }
    }
    assert items[..|items|] == items;
  }

  /** Every completed item with a `done` entry is counted on exactly one day. */
  lemma {:induction false} ThroughputCountsEachOnce(items: seq<Item>, day: int, other: int)
    requires day != other
    ensures DoneOn(items, day) + DoneOn(items, other) <= |items|
  {
    if items != [] {
      ThroughputCountsEachOnce(items[..|items| - 1], day, other);
    }
  }

  // ---------------------------------------------------------------------------
  // The report
  // ---------------------------------------------------------------------------

  /** `Math.round(total / count)` in exact arithmetic: half-way rounds up. */
  function RoundedAverage(total: int, count: nat): (r: int)
    requires count > 0
    ensures 2 * count * r <= 2 * total + count < 2 * count * (r + 1)
  {
    (2 * total + count) / (2 * count)
  }

  datatype StageAverage = StageAverage(avgMs: int, count: nat)

  datatype Report = Report(
    totalTasks: nat,
    completedTasks: nat,
    tasksInProgress: nat,
    tasksInReview: nat,
    tasksByColumn: map<string, nat>,
    kenny: nat,
    jimmy: nat,
    unassigned: nat,
    cycleTimes: seq<CycleTime>,
    totalCycleTime: int,
    avgTimePerStage: map<string, StageAverage>,
    throughputByDay: map<int, nat>)

  /** The cycle-time loop: one entry per completed item with a full history, and their sum. */
  method CycleTimesOf(items: seq<Item>) returns (cts: seq<CycleTime>, sum: int)
    ensures cts == CycleTimes(items) && sum == SumCycleTimes(cts)
  {
    cts, sum := [], 0;
    for k := 0 to |items|
      invariant cts == CycleTimes(items[..k]) && sum == SumCycleTimes(cts)
    {
      var it := items[k];
      var ct := Data.CalculateCycleTime(it.stageHistory);
      CycleTimesStep(items, k);
      if ct.Some? {
        var entry := CycleTime(it.id, it.Get(Title), ct.value);
        SumCycleTimesStep(cts, entry);
        cts := cts + [entry];
        sum := sum + ct.value;
      }
    }
    assert items[..|items|] == items;
  }

  lemma CycleTimesStep(items: seq<Item>, k: nat)
    requires k < |items|
    ensures var ct := Data.CalculateCycleTime(items[k].stageHistory);
      CycleTimes(items[..k + 1]) == CycleTimes(items[..k]) + (if ct.Some? then [CycleTime(items[k].id, items[k].Get(Title), ct.value)] else [])
  {
    assert items[..k + 1][..k] == items[..k];
  }

  lemma SumCycleTimesStep(cts: seq<CycleTime>, e: CycleTime)
    ensures SumCycleTimes(cts + [e]) == SumCycleTimes(cts) + e.cycleTime
  {
    assert (cts + [e])[..|cts|] == cts;
  }

  /** The average entry of every stage with a total. */
  method StageAverages(totals: map<string, int>, counts: map<string, nat>, ghost items: seq<Item>, ghost now: int)
    returns (avg: map<string, StageAverage>)
    requires StageMaps(totals, counts, items, now)
    ensures forall s :: s in avg <==> StageCount(items, s) > 0
    ensures forall s :: s in avg ==>
      avg[s] == StageAverage(RoundedAverage(StageTotal(items, s, now), StageCount(items, s)), StageCount(items, s))
  {
    avg := map s | s in totals :: StageAverage(RoundedAverage(totals[s], counts[s]), counts[s]);
  }

  /** `GET /metrics`, stamped by the clock value `now`. */
  method ComputeMetrics(columns: seq<Column>, now: int) returns (m: Report)
    ensures m.totalTasks == ItemCount(columns) && m.completedTasks == |CompletedItems(columns)|
    ensures m.tasksInProgress == ColumnSize(columns, "doing") && m.tasksInReview == ColumnSize(columns, "review")
    ensures m.tasksByColumn == TasksByColumn(columns)
    ensures m.kenny == CountAssigned(AllItems(columns), "kenny") && m.jimmy == CountAssigned(AllItems(columns), "jimmy")
    ensures m.unassigned == CountUnassigned(AllItems(columns))
    ensures m.kenny + m.jimmy + m.unassigned == m.totalTasks
    ensures m.cycleTimes == CycleTimes(CompletedItems(columns)) && m.totalCycleTime == SumCycleTimes(m.cycleTimes)
    ensures forall s :: s in m.avgTimePerStage <==> StageCount(CompletedItems(columns), s) > 0
    ensures forall s :: s in m.avgTimePerStage ==> m.avgTimePerStage[s].count == StageCount(CompletedItems(columns), s)
    ensures forall s :: s in m.avgTimePerStage ==>
      m.avgTimePerStage[s].avgMs == RoundedAverage(StageTotal(CompletedItems(columns), s, now), StageCount(CompletedItems(columns), s))
    ensures forall d :: d in m.throughputByDay <==> DoneOn(CompletedItems(columns), d) > 0
    ensures forall d :: d in m.throughputByDay ==> m.throughputByDay[d] == DoneOn(CompletedItems(columns), d)
  {
    var allItems, completed := GatherItems(columns);
    var byColumn := ColumnSizes(columns);
    var kenny, jimmy, unassigned := AssigneeCounts(allItems);
    var cts, sum := CycleTimesOf(completed);
    var totals, counts := StageAggregates(completed, now);
    var avg := StageAverages(totals, counts, completed, now);
    var byDay := Throughput(completed);
    m := Report(|allItems|, |completed|, ColumnSize(columns, "doing"), ColumnSize(columns, "review"),
                byColumn, kenny, jimmy, unassigned, cts, sum, avg, byDay);
  }
}
