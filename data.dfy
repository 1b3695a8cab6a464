/**
 * The pure helpers of kanban/lib/data.js: identifier shape, tag normalisation and the
 * two metrics derived from an item's stage history.
 */
module Data {
  import opened Wrappers
  import opened Text
  import opened BoardTypes

  // ---------------------------------------------------------------------------
  // Identifiers
  // ---------------------------------------------------------------------------

  /**
   * `uniqueId(prefix)`. The timestamp and random suffix of the original are replaced by
   * a serial number the caller draws from a counter.
   */
  function UniqueId(prefix: string, serial: nat): (id: string)
    ensures StartsWith(id, prefix + "-")
  {
    prefix + "-" + Decimal(serial)
  }

  /** Reads the serial back out of an id with the given prefix. */
  function ParseSerial(prefix: string, id: string): Option<nat> {
    var p := prefix + "-";
    if StartsWith(id, p) && |id| > |p| && AllDigits(id[|p|..]) then Some(ParseDecimal(id[|p|..]))
    else None
  }

  lemma UniqueIdRoundTrip(prefix: string, serial: nat)
    ensures ParseSerial(prefix, UniqueId(prefix, serial)) == Some(serial)
  {
    var p := prefix + "-";
    var id := UniqueId(prefix, serial);
    assert id[|p|..] == Decimal(serial);
    DecimalRoundTrip(serial);
  }

  /** Ids drawn from different serials never collide. */
  lemma UniqueIdInjective(prefix: string, a: nat, b: nat)
    ensures UniqueId(prefix, a) == UniqueId(prefix, b) ==> a == b
  {
    UniqueIdRoundTrip(prefix, a);
    UniqueIdRoundTrip(prefix, b);
  }

  // ---------------------------------------------------------------------------
  // Tags
  // ---------------------------------------------------------------------------

  /** The shapes `normalizeTags` distinguishes: `null`/`undefined`, a non-array, or an array. */
  datatype TagsInput = NoTags | NotAnArray | TagList(entries: seq<string>)

  const DefaultTag := "needs-triage"

  /** `tags.map(t => String(t).trim()).filter(Boolean)`. */
  function Cleaned(entries: seq<string>): seq<string> {
    if entries == [] then [] else Cleaned(entries[..|entries| - 1]) + CleanOne(entries[|entries| - 1])
  }

  /** One entry, trimmed, or nothing when it is blank. */
  function CleanOne(t: string): seq<string> {
    var u := Trim(t);
    if u == "" then [] else [u]
  }

  /** A tag as cleaning leaves it: non-blank and already trimmed. */
  predicate IsCleanTag(t: string) {
    t != "" && Trim(t) == t
  }

  /** Every cleaned tag is a trimmed, non-blank string. */
  lemma {:induction false} CleanedEntries(entries: seq<string>)
    ensures forall k :: 0 <= k < |Cleaned(entries)| ==> IsCleanTag(Cleaned(entries)[k])
  {
    if entries != [] {
      var front, last := entries[..|entries| - 1], entries[|entries| - 1];
      CleanedEntries(front);
      TrimIdempotent(last);
      var a, b := Cleaned(front), CleanOne(last);
      assert Cleaned(entries) == a + b;
      forall k | 0 <= k < |a + b|
        ensures IsCleanTag((a + b)[k])
      {
        if k >= |a| {
          assert (a + b)[k] == Trim(last);
        }
      }
    }
  }

  /** A single entry survives, trimmed, exactly when it is not blank; duplicates are kept. */
  lemma CleanedSingle(t: string)
    ensures Cleaned([t]) == if Trim(t) == "" then [] else [Trim(t)]
  {
    assert [t][..0] == [];
    assert Cleaned([t]) == Cleaned([]) + CleanOne(t);
  }

  /** `normalizeTags(tags)`: the error message is the one the original throws. */
  function NormalizeTags(tags: TagsInput): (r: Result<seq<string>, string>)
    ensures r.Failure? <==> tags.NotAnArray?
    ensures r.Failure? ==> r.error == "Tags must be an array of strings"
    ensures r.Success? ==> r.value != []
    ensures tags.NoTags? ==> r == Success([DefaultTag])
    ensures tags.TagList? && Cleaned(tags.entries) != [] ==> r == Success(Cleaned(tags.entries))
    ensures tags.TagList? && Cleaned(tags.entries) == [] ==> r == Success([DefaultTag])
  {
    match tags
    case NoTags => Success([DefaultTag])
    case NotAnArray => Failure("Tags must be an array of strings")
    case TagList(entries) =>
      var cleaned := Cleaned(entries);
      if |cleaned| > 0 then Success(cleaned) else Success([DefaultTag])
  }

  /** A list of trimmed non-blank strings cleans to itself. */
  lemma {:induction false} CleanedFixed(r: seq<string>)
    requires forall k :: 0 <= k < |r| ==> IsCleanTag(r[k])
    ensures Cleaned(r) == r
  {
    if r != [] {
      var front, last := r[..|r| - 1], r[|r| - 1];
      CleanedFixed(front);
      assert CleanOne(last) == [last];
      assert Cleaned(r) == Cleaned(front) + CleanOne(last);
      assert r == front + [last];
    }
  }

  /** Normalising an already normalised list changes nothing. */
  lemma NormalizeTagsIdempotent(tags: TagsInput)
    requires NormalizeTags(tags).Success?
    ensures NormalizeTags(TagList(NormalizeTags(tags).value)) == NormalizeTags(tags)
  {
    var r := NormalizeTags(tags).value;
    if tags.TagList? && Cleaned(tags.entries) != [] {
      CleanedEntries(tags.entries);
    } else {
      assert r == [DefaultTag];
      TrimUnchanged(DefaultTag);
    }
    CleanedFixed(r);
  }

  // ---------------------------------------------------------------------------
  // Stage time
  // ---------------------------------------------------------------------------

  /** How long entry i lasted: until the next entry, or until `now` for the last one. */
  function Duration(history: seq<StageEntry>, i: nat, now: int): int
    requires i < |history|
  {
    (if i + 1 < |history| then history[i + 1].enteredAt else now) - history[i].enteredAt
  }

  /** The summed duration of the visits to `column` among the first n entries. */
  function TimeIn(history: seq<StageEntry>, column: string, now: int, n: nat): int
    requires n <= |history|
  {
    if n == 0 then 0
    else TimeIn(history, column, now, n - 1) + (if history[n - 1].column == column then Duration(history, n - 1, now) else 0)
  }

  /** No column is listed twice. */
  predicate NoRepeats(cols: seq<string>)
  {
    forall j, k :: 0 <= j < k < |cols| ==> cols[j] != cols[k]
  }

  /** The columns among the first n entries, each once, in order of first visit. */
  function VisitedColumns(history: seq<StageEntry>, n: nat): (cols: seq<string>)
    requires n <= |history|
  {
    if n == 0 then []
    else
      var earlier := VisitedColumns(history, n - 1);
      if history[n - 1].column in earlier then earlier else earlier + [history[n - 1].column]
  }

  /** Each visited column is listed once. */
  lemma {:induction false} VisitedColumnsNoRepeats(history: seq<StageEntry>, n: nat)
    requires n <= |history|
    ensures NoRepeats(VisitedColumns(history, n))
  {
    if n > 0 {
      VisitedColumnsNoRepeats(history, n - 1);
    }
  }

  /** A column is listed exactly when one of the first n entries is for it. */
  lemma {:induction false} VisitedColumnsMembers(history: seq<StageEntry>, n: nat)
    requires n <= |history|
    ensures forall c :: c in VisitedColumns(history, n) <==> exists i :: 0 <= i < n && history[i].column == c
  {
    if n > 0 {
      VisitedColumnsMembers(history, n - 1);
    }
  }

  /**
   * `calculateStageTime(item)`: walks the stage history once, adding each entry's duration
   * to its column's running total.
   */
  method CalculateStageTime(history: seq<StageEntry>, now: int) returns (stageTimes: map<string, int>)
    ensures history == [] ==> stageTimes == map[]
    ensures forall c :: c in stageTimes <==> c in VisitedColumns(history, |history|)
    ensures forall c :: c in stageTimes ==> stageTimes[c] == TimeIn(history, c, now, |history|)
  {
    if |history| == 0 {
      return map[];
    }
    stageTimes := map[];
    var i := 0;
    while i < |history|
      invariant 0 <= i <= |history|
      invariant forall c :: c in stageTimes <==> c in VisitedColumns(history, i)
      invariant forall c :: c in stageTimes ==> stageTimes[c] == TimeIn(history, c, now, i)
    {
      var entry := history[i];
      var endTime := if i + 1 < |history| then history[i + 1].enteredAt else now;
      var duration := endTime - entry.enteredAt;
      // A missing (or zero) total starts from zero.
      if entry.column !in stageTimes {
        TimeInUnvisited(history, entry.column, now, i);
        stageTimes := stageTimes[entry.column := 0];
      }
      stageTimes := stageTimes[entry.column := stageTimes[entry.column] + duration];
      StageTimeStep(history, now, i);
      i := i + 1;
    }
  }

  /** What entry i adds: its column becomes visited and gains its duration; no other column changes. */
  lemma StageTimeStep(history: seq<StageEntry>, now: int, i: nat)
    requires i < |history|
    ensures forall c :: c in VisitedColumns(history, i + 1) <==> c in VisitedColumns(history, i) || c == history[i].column
    ensures forall c :: TimeIn(history, c, now, i + 1)
                       == TimeIn(history, c, now, i) + (if c == history[i].column then Duration(history, i, now) else 0)
  {
    var earlier := VisitedColumns(history, i);
    assert VisitedColumns(history, i + 1) == if history[i].column in earlier then earlier else earlier + [history[i].column];
  }

  /** The summed durations of a list of columns. */
  function SumTimes(cols: seq<string>, history: seq<StageEntry>, now: int, n: nat): int
    requires n <= |history|
  {
    if cols == [] then 0 else SumTimes(cols[..|cols| - 1], history, now, n) + TimeIn(history, cols[|cols| - 1], now, n)
  }

  /** The durations of all of the first n entries. */
  function TotalDuration(history: seq<StageEntry>, now: int, n: nat): int
    requires n <= |history|
  {
    if n == 0 then 0 else TotalDuration(history, now, n - 1) + Duration(history, n - 1, now)
  }

  /** The durations telescope: they add up to the time from the first entry to the end of entry n - 1. */
  lemma {:induction false} TotalDurationTelescopes(history: seq<StageEntry>, now: int, n: nat)
    requires 0 < n <= |history|
    ensures TotalDuration(history, now, n) == (if n < |history| then history[n].enteredAt else now) - history[0].enteredAt
  {
    if n > 1 {
      TotalDurationTelescopes(history, now, n - 1);
    }
  }

  /** Adding entry n to the prefix adds its duration to exactly one column of a repeat-free list that holds it. */
  lemma {:induction false} SumTimesStep(cols: seq<string>, history: seq<StageEntry>, now: int, n: nat)
    requires n < |history|
    requires NoRepeats(cols)
    ensures SumTimes(cols, history, now, n + 1)
         == SumTimes(cols, history, now, n) + (if history[n].column in cols then Duration(history, n, now) else 0)
  {
    if cols != [] {
      var front := cols[..|cols| - 1];
      SumTimesStep(front, history, now, n);
      assert cols == front + [cols[|cols| - 1]];
      assert history[n].column in cols <==> history[n].column in front || history[n].column == cols[|cols| - 1];
    }
  }

  /** The time the item has not yet spent in a column is zero. */
  lemma {:induction false} TimeInUnvisited(history: seq<StageEntry>, column: string, now: int, n: nat)
    requires n <= |history|
    requires column !in VisitedColumns(history, n)
    ensures TimeIn(history, column, now, n) == 0
  {
    if n > 0 {
      TimeInUnvisited(history, column, now, n - 1);
    }
  }

  /** Summed over the visited columns, the stage times account for every entry's duration. */
  lemma {:induction false} StageTimesAccountForAll(history: seq<StageEntry>, now: int, n: nat)
    requires n <= |history|
    ensures SumTimes(VisitedColumns(history, n), history, now, n) == TotalDuration(history, now, n)
  {
    if n > 0 {
      StageTimesAccountForAll(history, now, n - 1);
      VisitedColumnsNoRepeats(history, n - 1);
      var earlier := VisitedColumns(history, n - 1);
      var c := history[n - 1].column;
      var d := Duration(history, n - 1, now);
      SumTimesStep(earlier, history, now, n - 1);
      assert TotalDuration(history, now, n) == TotalDuration(history, now, n - 1) + d;
      if c in earlier {
        assert VisitedColumns(history, n) == earlier;
        assert SumTimes(earlier, history, now, n) == SumTimes(earlier, history, now, n - 1) + d;
      } else {
        var cols := earlier + [c];
        assert VisitedColumns(history, n) == cols;
        TimeInUnvisited(history, c, now, n - 1);
        assert TimeIn(history, c, now, n) == d;
        assert cols[..|cols| - 1] == earlier && cols[|cols| - 1] == c;
        assert SumTimes(cols, history, now, n) == SumTimes(earlier, history, now, n) + TimeIn(history, c, now, n);
        assert SumTimes(earlier, history, now, n) == SumTimes(earlier, history, now, n - 1);
      }
    }
  }

  /**
   * The stage times of a non-empty history add up to the time since its first entry: the
   * last stage runs until `now`, and repeated visits are summed rather than overwritten.
   */
  lemma StageTimesSumToElapsed(history: seq<StageEntry>, now: int)
    requires history != []
    ensures SumTimes(VisitedColumns(history, |history|), history, now, |history|) == now - history[0].enteredAt
  {
    StageTimesAccountForAll(history, now, |history|);
    TotalDurationTelescopes(history, now, |history|);
  }

  // ---------------------------------------------------------------------------
  // Cycle time
  // ---------------------------------------------------------------------------

  /** True when entry i is the first entry for the column. */
  predicate IsFirstEntry(history: seq<StageEntry>, column: string, i: int) {
    0 <= i < |history| && history[i].column == column && forall j :: 0 <= j < i ==> history[j].column != column
  }

  /** `history.find(h => h.column === column)`. */
  function FirstEntry(history: seq<StageEntry>, column: string): (r: Option<StageEntry>)
    ensures r.Some? ==> exists i :: IsFirstEntry(history, column, i) && history[i] == r.value
    ensures r.None? <==> forall j :: 0 <= j < |history| ==> history[j].column != column
  {
    if history == [] then None
    else if history[0].column == column then (assert IsFirstEntry(history, column, 0); Some(history[0]))
    else
      var rest := FirstEntry(history[1..], column);
      if rest.Some? then
        var i :| IsFirstEntry(history[1..], column, i) && history[1..][i] == rest.value;
        assert IsFirstEntry(history, column, i + 1);
        rest
      else
        assert forall j :: 1 <= j < |history| ==> history[j].column == history[1..][j - 1].column;
        None
  }

  /** `calculateCycleTime(item)`: first `done` entry minus first `todo` entry, or null. */
  function CalculateCycleTime(history: seq<StageEntry>): (r: Option<int>)
    ensures r.None? <==> ((forall j :: 0 <= j < |history| ==> history[j].column != "todo")
                          || (forall j :: 0 <= j < |history| ==> history[j].column != "done"))
    ensures r.Some? ==> exists i, j :: IsFirstEntry(history, "todo", i) && IsFirstEntry(history, "done", j)
                                     && r.value == history[j].enteredAt - history[i].enteredAt
  {
    if |history| == 0 then None
    else
      var todoEntry := FirstEntry(history, "todo");
      var doneEntry := FirstEntry(history, "done");
      if todoEntry.None? || doneEntry.None? then None
      else Some(doneEntry.value.enteredAt - todoEntry.value.enteredAt)
  }
}
