/**
 * The board document: columns holding ordered items, and the lookup every handler
 * and the client's `findItemById` use to locate an item by id (kanban/routes/board.js,
 * kanban/public/js/state.js).
 */
module BoardTypes {
  import opened Wrappers

  /** A JSON field that holds a string, holds `null`, or is missing (`undefined`). */
  datatype JsStr = Undefined | Null | Str(s: string) {
    /** JavaScript truthiness: only a non-empty string is truthy. */
    predicate Truthy() {
      Str? && s != ""
    }
  }

  /** `v || fallback` for a string fallback. */
  function OrElse(v: JsStr, fallback: string): (r: string)
    ensures v.Truthy() ==> r == v.s
    ensures !v.Truthy() ==> r == fallback
  {
    if v.Truthy() then v.s else fallback
  }

  /** The scalar item fields a client may send in an update. */
  datatype Field = Title | Description | Priority | Assignee | BlockedBy | CreatedBy | ColumnId | DueDate | UpdatedBy

  /** One stage-history entry: the column entered and when, in milliseconds. */
  datatype StageEntry = StageEntry(column: string, enteredAt: int)

  datatype Comment = Comment(id: string, text: string, author: string, createdAt: int)

  datatype Subtask = Subtask(id: string, text: JsStr, completed: bool, createdAt: int)

  /**
   * A work item. Its scalar fields are a map from field to value, so that the merge
   * `{ ...item, ...updates }` is a map override and a missing key reads as `undefined`.
   */
  datatype Item = Item(
    id: string,
    number: nat,
    fields: map<Field, JsStr>,
    tags: seq<string>,
    createdAt: int,
    comments: seq<Comment>,
    subtasks: seq<Subtask>,
    stageHistory: seq<StageEntry>)
  {
    /** `item[key]`. */
    function Get(f: Field): JsStr {
      if f in fields then fields[f] else Undefined
    }
  }

  datatype Column = Column(id: string, title: string, items: seq<Item>)

  /** Where an item sits: the index of its column and its index within that column. */
  datatype Position = Position(column: nat, index: nat)

  /** `splice(i, 1)`: the sequence without its entry at i, the others in order. */
  function RemoveAt<T>(s: seq<T>, i: nat): (r: seq<T>)
    requires i < |s|
    ensures |r| == |s| - 1
    ensures forall j :: 0 <= j < i ==> r[j] == s[j]
    ensures forall j :: i <= j < |r| ==> r[j] == s[j + 1]
  {
    s[..i] + s[i + 1..]
  }

  /** `items.findIndex(i => i.id === id)`, with None for -1. */
  function IndexOfId(items: seq<Item>, id: string): (r: Option<nat>)
    ensures r.Some? ==> r.value < |items| && items[r.value].id == id
    ensures r.Some? ==> forall j :: 0 <= j < r.value ==> items[j].id != id
    ensures r.None? ==> forall j :: 0 <= j < |items| ==> items[j].id != id
  {
    if items == [] then None
    else if items[0].id == id then Some(0)
    else match IndexOfId(items[1..], id)
      case None => None
      case Some(k) => Some(k + 1)
  }

  /** True when the item at p exists and carries the id. */
  predicate At(columns: seq<Column>, p: Position, id: string) {
    p.column < |columns| && p.index < |columns[p.column].items| && columns[p.column].items[p.index].id == id
  }

  /** No item with the id in the columns from `from` on. */
  predicate AbsentFrom(columns: seq<Column>, id: string, from: nat) {
    forall c, j :: from <= c < |columns| && 0 <= j < |columns[c].items| ==> columns[c].items[j].id != id
  }

  /** The search of the handlers' `for (const column of data.columns)` loops, from column `from` on. */
  function FindItemFrom(columns: seq<Column>, id: string, from: nat): (r: Option<Position>)
    requires from <= |columns|
    ensures r.Some? ==> from <= r.value.column && At(columns, r.value, id)
    ensures r.Some? ==> AbsentFrom(columns[..r.value.column], id, from)
    ensures r.Some? ==> forall j :: 0 <= j < r.value.index ==> columns[r.value.column].items[j].id != id
    ensures r.None? ==> AbsentFrom(columns, id, from)
    decreases |columns| - from
  {
    if from == |columns| then None
    else match IndexOfId(columns[from].items, id)
      case Some(j) => Some(Position(from, j))
      case None => FindItemFrom(columns, id, from + 1)
  }

  /** The first item with the id, scanning columns in order and each column front to back. */
  function FindItem(columns: seq<Column>, id: string): Option<Position> {
    FindItemFrom(columns, id, 0)
  }

  /** FindItem finds the id exactly when some item carries it, and finds the first such item. */
  lemma FindItemIsFirst(columns: seq<Column>, id: string)
    ensures FindItem(columns, id).None? <==> AbsentFrom(columns, id, 0)
    ensures FindItem(columns, id).Some? ==> At(columns, FindItem(columns, id).value, id)
    ensures forall p :: At(columns, p, id) && FindItem(columns, id).Some? ==>
      var q := FindItem(columns, id).value;
      q.column < p.column || (q.column == p.column && q.index <= p.index)
  {
  }

  /** How many items of the list carry the id; CountMember and CountAppend give its value. */
  function CountIn(items: seq<Item>, id: string): (n: nat)
    ensures n <= |items|
  {
    if items == [] then 0 else (if items[0].id == id then 1 else 0) + CountIn(items[1..], id)
  }

  /** How often an id occurs on the board. */
  function Occurrences(columns: seq<Column>, id: string): nat {
    if columns == [] then 0 else CountIn(columns[0].items, id) + Occurrences(columns[1..], id)
  }

  /** The number of items on the board. */
  function ItemCount(columns: seq<Column>): nat {
    if columns == [] then 0 else |columns[0].items| + ItemCount(columns[1..])
  }
}
