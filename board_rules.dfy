/**
 * The value-level rules of the board handlers in kanban/routes/board.js: the splice
 * edits on a column's items and what they do to the ids on the board, the board
 * invariant, and what each handler computes before it writes (creator resolution, the
 * update diff and auto-comments, the move target and comment, mention scanning, and
 * the subtask update).
 */
module BoardRules {
  import opened Wrappers
  import opened Text
  import opened BoardTypes
  import Constants
  import Data
  import Events

  // ---------------------------------------------------------------------------
  // Edits of a column's items
  // ---------------------------------------------------------------------------

  lemma {:induction false} CountAppend(a: seq<Item>, b: seq<Item>, id: string)
    ensures CountIn(a + b, id) == CountIn(a, id) + CountIn(b, id)
  {
    if a == [] {
      assert a + b == b;
    } else {
      assert (a + b)[0] == a[0];
      assert (a + b)[1..] == a[1..] + b;
      CountAppend(a[1..], b, id);
    }
  }

  /** An id is counted in a list exactly when some item of the list carries it. */
  lemma {:induction false} CountMember(s: seq<Item>, id: string)
    ensures CountIn(s, id) > 0 <==> exists j :: 0 <= j < |s| && s[j].id == id
  {
    if s != [] {
      CountMember(s[1..], id);
      if CountIn(s[1..], id) > 0 {
        var j :| 0 <= j < |s| - 1 && s[1..][j].id == id;
        assert s[j + 1].id == id;
      }
      if exists j :: 0 <= j < |s| && s[j].id == id {
        var j :| 0 <= j < |s| && s[j].id == id;
        if j > 0 {
          assert s[1..][j - 1].id == id;
        }
      }
    }
  }

  /** Splicing an item out removes exactly its id. */
  lemma RemoveAtCount(s: seq<Item>, i: nat, id: string)
    requires i < |s|
    ensures CountIn(RemoveAt(s, i), id) + (if s[i].id == id then 1 else 0) == CountIn(s, id)
  {
    assert s == s[..i] + ([s[i]] + s[i + 1..]);
    CountAppend(s[..i], [s[i]] + s[i + 1..], id);
    CountAppend([s[i]], s[i + 1..], id);
    CountAppend(s[..i], s[i + 1..], id);
    assert [s[i]][1..] == [];
  }

  /** The start index of `splice(start, …)`: a negative start counts from the end; both ends clamp. */
  function SpliceStart(len: nat, start: int): (k: nat)
    ensures k <= len
    ensures 0 <= start <= len ==> k == start
    ensures start > len ==> k == len
    ensures start < 0 ==> k == (if len + start > 0 then len + start else 0)
  {
    if start < 0 then (if len + start > 0 then len + start else 0) else if start < len then start else len
  }

  /** `items.splice(k, 0, x)` for an index already clamped. */
  function InsertAt(s: seq<Item>, k: nat, x: Item): (r: seq<Item>)
    requires k <= |s|
    ensures |r| == |s| + 1 && r[k] == x
    ensures forall j :: 0 <= j < k ==> r[j] == s[j]
    ensures forall j :: k < j < |r| ==> r[j] == s[j - 1]
  {
    s[..k] + [x] + s[k..]
  }

  /** Splicing an item in adds exactly its id. */
  lemma InsertAtCount(s: seq<Item>, k: nat, x: Item, id: string)
    requires k <= |s|
    ensures CountIn(InsertAt(s, k, x), id) == CountIn(s, id) + (if x.id == id then 1 else 0)
  {
    assert s == s[..k] + s[k..];
    assert InsertAt(s, k, x) == s[..k] + ([x] + s[k..]);
    CountAppend(s[..k], [x] + s[k..], id);
    CountAppend([x], s[k..], id);
    CountAppend(s[..k], s[k..], id);
    assert [x][1..] == [];
  }

  /** Overwriting an item with one of the same id keeps the counts. */
  lemma {:induction false} ReplaceCount(s: seq<Item>, i: nat, x: Item, id: string)
    requires i < |s| && x.id == s[i].id
    ensures CountIn(s[i := x], id) == CountIn(s, id)
  {
    if i > 0 {
      assert s[i := x][1..] == s[1..][i - 1 := x];
      ReplaceCount(s[1..], i - 1, x, id);
    } else {
      assert s[i := x][1..] == s[1..];
    }
  }

  /** The board with column c's items replaced. */
  function WithItems(columns: seq<Column>, c: nat, items: seq<Item>): (r: seq<Column>)
    requires c < |columns|
    ensures |r| == |columns| && r[c].items == items
    ensures r[c].id == columns[c].id && r[c].title == columns[c].title
    ensures forall k :: 0 <= k < |columns| && k != c ==> r[k] == columns[k]
  {
    columns[c := columns[c].(items := items)]
  }

  /** Replacing one column's items trades that column's ids and size for the new ones. */
  lemma {:induction false} WithItemsCount(columns: seq<Column>, c: nat, items: seq<Item>, id: string)
    requires c < |columns|
    ensures Occurrences(WithItems(columns, c, items), id) + CountIn(columns[c].items, id)
         == Occurrences(columns, id) + CountIn(items, id)
    ensures ItemCount(WithItems(columns, c, items)) + |columns[c].items| == ItemCount(columns) + |items|
  {
    var r := WithItems(columns, c, items);
    if c > 0 {
      assert r[1..] == WithItems(columns[1..], c - 1, items);
      WithItemsCount(columns[1..], c - 1, items, id);
    } else {
      assert r[1..] == columns[1..];
    }
  }

  /** An id occurs on the board exactly when some column holds an item with it. */
  lemma {:induction false} OccurrencesMember(columns: seq<Column>, id: string)
    ensures Occurrences(columns, id) > 0 <==> !AbsentFrom(columns, id, 0)
  {
    if columns != [] {
      OccurrencesMember(columns[1..], id);
      CountMember(columns[0].items, id);
      if Occurrences(columns[1..], id) > 0 {
        var c, j :| 0 <= c < |columns| - 1 && 0 <= j < |columns[1..][c].items| && columns[1..][c].items[j].id == id;
        assert columns[c + 1].items[j].id == id;
      }
      if !AbsentFrom(columns, id, 0) {
        var c, j :| 0 <= c < |columns| && 0 <= j < |columns[c].items| && columns[c].items[j].id == id;
        if c > 0 {
          assert columns[1..][c - 1].items[j].id == id;
        }
      }
    }
  }

  /** A board without items has no ids. */
  lemma {:induction false} EmptyColumnsNoItems(columns: seq<Column>, id: string)
    requires forall k :: 0 <= k < |columns| ==> columns[k].items == []
    ensures Occurrences(columns, id) == 0 && ItemCount(columns) == 0
  {
    if columns != [] {
      EmptyColumnsNoItems(columns[1..], id);
    }
  }

  /** The search finds an id exactly when it is on the board. */
  lemma FindItemIffOnBoard(columns: seq<Column>, id: string)
    ensures FindItem(columns, id).Some? <==> Occurrences(columns, id) > 0
  {
    OccurrencesMember(columns, id);
  }

  // ---------------------------------------------------------------------------
  // The board invariant
  // ---------------------------------------------------------------------------

  /** The five columns of the column table, in order, with their titles. */
  predicate FixedColumns(columns: seq<Column>) {
    && |columns| == |Constants.Columns|
    && forall k :: 0 <= k < |columns| ==> columns[k].id == Constants.Columns[k].id && columns[k].title == Constants.Columns[k].title
  }

  /** Every item sits in exactly one place on the board. */
  ghost predicate UniqueIds(columns: seq<Column>) {
    forall id :: Occurrences(columns, id) <= 1
  }

  /** No item id the counter can still produce is on the board. */
  ghost predicate FreshFrom(columns: seq<Column>, serial: nat) {
    forall n: nat :: n >= serial ==> Occurrences(columns, Data.UniqueId("item", n)) == 0
  }

  /**
   * What every stored item keeps: at least one tag, a stage history, and a ticket number
   * below the counter `nextTicketNumber`.
   */
  predicate ItemOk(it: Item, ticket: nat) {
    it.tags != [] && it.stageHistory != [] && it.number < ticket
  }

  predicate ItemsOk(items: seq<Item>, ticket: nat) {
    forall j :: 0 <= j < |items| ==> ItemOk(items[j], ticket)
  }

  /** The board invariant: fixed columns, unique ids, fresh counters and well-formed items. */
  ghost predicate BoardOk(columns: seq<Column>, serial: nat, ticket: nat) {
    && FixedColumns(columns)
    && UniqueIds(columns)
    && FreshFrom(columns, serial)
    && forall c :: 0 <= c < |columns| ==> ItemsOk(columns[c].items, ticket)
  }

  /** Every ticket number on a well-formed board is below the next one to be issued. */
  lemma NumbersBelowTicket(columns: seq<Column>, serial: nat, ticket: nat)
    requires BoardOk(columns, serial, ticket)
    ensures forall k, j :: 0 <= k < |columns| && 0 <= j < |columns[k].items| ==> columns[k].items[j].number < ticket
  {
  }

  /** The fixed columns in order, all empty: `initDataFile`'s board. */
  function InitialColumns(): (columns: seq<Column>)
    ensures BoardOk(columns, 0, 0) && ItemCount(columns) == 0
    ensures forall c :: 0 <= c < |columns| ==> columns[c].items == []
  {
    var r := seq(|Constants.Columns|, k requires 0 <= k < |Constants.Columns| => Column(Constants.Columns[k].id, Constants.Columns[k].title, []));
    EmptyColumnsNoItems(r, "");
    forall id
      ensures Occurrences(r, id) == 0
    {
      EmptyColumnsNoItems(r, id);
    }
    r
  }

  /** Losing items but no new ids keeps uniqueness and freshness. */
  lemma FewerIdsKeepInvariant(before: seq<Column>, after: seq<Column>, serial: nat, serial': nat)
    requires UniqueIds(before) && FreshFrom(before, serial) && serial <= serial'
    requires forall id :: Occurrences(after, id) <= Occurrences(before, id)
    ensures UniqueIds(after) && FreshFrom(after, serial')
  {
  }

  /** Adding the item id at the counter, then advancing the counter, keeps uniqueness and freshness. */
  lemma FreshIdKeepsInvariant(before: seq<Column>, after: seq<Column>, serial: nat, serial': nat)
    requires UniqueIds(before) && FreshFrom(before, serial) && serial < serial'
    requires forall id :: Occurrences(after, id) == Occurrences(before, id) + (if id == Data.UniqueId("item", serial) then 1 else 0)
    ensures UniqueIds(after) && FreshFrom(after, serial')
  {
    var newId := Data.UniqueId("item", serial);
    assert Occurrences(before, newId) == 0;
    forall n: nat | n >= serial'
      ensures Occurrences(after, Data.UniqueId("item", n)) == 0
    {
      Data.UniqueIdInjective("item", n, serial);
    }
  }

  /** Appending the item with the counter's id to a column keeps the invariant and adds one item. */
  lemma {:induction false} AppendKeepsBoardOk(columns: seq<Column>, serial: nat, ticket: nat, c: nat, x: Item, serial': nat, ticket': nat)
    requires BoardOk(columns, serial, ticket) && c < |columns| && serial < serial' && ticket <= ticket'
    requires x.id == Data.UniqueId("item", serial) && ItemOk(x, ticket')
    ensures var after := WithItems(columns, c, columns[c].items + [x]);
      && BoardOk(after, serial', ticket')
      && ItemCount(after) == ItemCount(columns) + 1
      && Occurrences(after, x.id) == 1
  {
    var items := columns[c].items + [x];
    var after := WithItems(columns, c, items);
    assert [x][1..] == [];
    forall id
      ensures Occurrences(after, id) == Occurrences(columns, id) + (if id == x.id then 1 else 0)
    {
      WithItemsCount(columns, c, items, id);
      CountAppend(columns[c].items, [x], id);
    }
    WithItemsCount(columns, c, items, x.id);
    FreshIdKeepsInvariant(columns, after, serial, serial');
    assert Occurrences(columns, x.id) == 0;
  }

  /** Overwriting an item with one of the same id keeps the invariant, the ids and the size. */
  lemma {:induction false} ReplaceKeepsBoardOk(columns: seq<Column>, serial: nat, ticket: nat, p: Position, x: Item, serial': nat)
    requires BoardOk(columns, serial, ticket) && serial <= serial'
    requires p.column < |columns| && p.index < |columns[p.column].items|
    requires x.id == columns[p.column].items[p.index].id && ItemOk(x, ticket)
    ensures var after := WithItems(columns, p.column, columns[p.column].items[p.index := x]);
      && BoardOk(after, serial', ticket)
      && ItemCount(after) == ItemCount(columns)
      && forall id :: Occurrences(after, id) == Occurrences(columns, id)
  {
    var items := columns[p.column].items[p.index := x];
    var after := WithItems(columns, p.column, items);
    forall id
      ensures Occurrences(after, id) == Occurrences(columns, id)
    {
      WithItemsCount(columns, p.column, items, id);
      ReplaceCount(columns[p.column].items, p.index, x, id);
    }
    WithItemsCount(columns, p.column, items, x.id);
    FewerIdsKeepInvariant(columns, after, serial, serial');
  }

  /** Splicing an item out keeps the invariant; its id leaves the board and nothing else does. */
  lemma {:induction false} RemoveKeepsBoardOk(columns: seq<Column>, serial: nat, ticket: nat, p: Position)
    requires BoardOk(columns, serial, ticket)
    requires p.column < |columns| && p.index < |columns[p.column].items|
    ensures var gone := columns[p.column].items[p.index].id;
      var after := WithItems(columns, p.column, RemoveAt(columns[p.column].items, p.index));
      && BoardOk(after, serial, ticket)
      && ItemCount(after) + 1 == ItemCount(columns)
      && Occurrences(after, gone) == 0
      && forall id :: id != gone ==> Occurrences(after, id) == Occurrences(columns, id)
  {
    var s := columns[p.column].items;
    var gone := s[p.index].id;
    var after := WithItems(columns, p.column, RemoveAt(s, p.index));
    forall id
      ensures Occurrences(after, id) + (if id == gone then 1 else 0) == Occurrences(columns, id)
    {
      WithItemsCount(columns, p.column, RemoveAt(s, p.index), id);
      RemoveAtCount(s, p.index, id);
    }
    WithItemsCount(columns, p.column, RemoveAt(s, p.index), gone);
    FewerIdsKeepInvariant(columns, after, serial, serial);
    assert Occurrences(columns, gone) <= 1;
  }

  /** Replacing one column's items by well-formed ones keeps the columns and the item shape. */
  lemma WithItemsShape(columns: seq<Column>, c: nat, items: seq<Item>, ticket: nat)
    requires c < |columns| && FixedColumns(columns) && ItemsOk(items, ticket)
    requires forall k :: 0 <= k < |columns| ==> ItemsOk(columns[k].items, ticket)
    ensures var after := WithItems(columns, c, items);
      FixedColumns(after) && forall k :: 0 <= k < |after| ==> ItemsOk(after[k].items, ticket)
  {
  }

  /** Inserting a well-formed item keeps a column well-formed. */
  lemma InsertAtOk(s: seq<Item>, k: nat, x: Item, ticket: nat)
    requires k <= |s| && ItemsOk(s, ticket) && ItemOk(x, ticket)
    ensures ItemsOk(InsertAt(s, k, x), ticket)
  {
  }

  /** Splicing an item out and back in elsewhere keeps the invariant, the ids and the size. */
  lemma {:induction false} MoveKeepsBoardOk(columns: seq<Column>, serial: nat, ticket: nat, p: Position, t: nat, k: nat, x: Item, serial': nat)
    requires BoardOk(columns, serial, ticket) && serial <= serial'
    requires p.column < |columns| && p.index < |columns[p.column].items| && t < |columns|
    requires x.id == columns[p.column].items[p.index].id && ItemOk(x, ticket)
    requires k <= |WithItems(columns, p.column, RemoveAt(columns[p.column].items, p.index))[t].items|
    ensures var mid := WithItems(columns, p.column, RemoveAt(columns[p.column].items, p.index));
      var after := WithItems(mid, t, InsertAt(mid[t].items, k, x));
      && BoardOk(after, serial', ticket)
      && ItemCount(after) == ItemCount(columns)
      && (forall id :: Occurrences(after, id) == Occurrences(columns, id))
      && Occurrences(after, x.id) == 1
  {
    var s := columns[p.column].items;
    var mid := WithItems(columns, p.column, RemoveAt(s, p.index));
    RemoveKeepsBoardOk(columns, serial, ticket, p);
    var ins := InsertAt(mid[t].items, k, x);
    var after := WithItems(mid, t, ins);
    assert Occurrences(columns, x.id) == 1 by {
      OccurrencesMember(columns, x.id);
    }
    forall id
      ensures Occurrences(after, id) == Occurrences(columns, id)
    {
      WithItemsCount(mid, t, ins, id);
      InsertAtCount(mid[t].items, k, x, id);
    }
    WithItemsCount(mid, t, ins, x.id);
    FewerIdsKeepInvariant(columns, after, serial, serial');
    InsertAtOk(mid[t].items, k, x, ticket);
    WithItemsShape(mid, t, ins, ticket);
  }

  // ---------------------------------------------------------------------------
  // Create
  // ---------------------------------------------------------------------------

  /** The creator values that stand for "nobody". */
  const PlaceholderCreators: seq<string> := ["", "unknown", "null", "undefined"]

  /** A chosen creator value, trimmed and lower-cased, with the placeholders read as `jimmy`. */
  function CreatorFrom(raw: string): (r: string)
    ensures r != ""
    ensures ToLower(Trim(raw)) in PlaceholderCreators ==> r == "jimmy"
    ensures ToLower(Trim(raw)) !in PlaceholderCreators ==> r == ToLower(Trim(raw))
  {
    var normalized := ToLower(Trim(raw));
    if normalized in PlaceholderCreators then "jimmy" else normalized
  }

  /**
   * `body.createdBy || x-user || x-user-id || x-created-by || ''`, normalised. Only the
   * first truthy source counts, even when it normalises to a placeholder.
   */
  function ResolveCreatedBy(body: JsStr, xUser: JsStr, xUserId: JsStr, xCreatedBy: JsStr): (r: string)
    ensures r != ""
    ensures body.Truthy() ==> r == CreatorFrom(body.s)
    ensures !body.Truthy() && xUser.Truthy() ==> r == CreatorFrom(xUser.s)
    ensures !body.Truthy() && !xUser.Truthy() && xUserId.Truthy() ==> r == CreatorFrom(xUserId.s)
    ensures !body.Truthy() && !xUser.Truthy() && !xUserId.Truthy() && xCreatedBy.Truthy() ==> r == CreatorFrom(xCreatedBy.s)
    ensures !body.Truthy() && !xUser.Truthy() && !xUserId.Truthy() && !xCreatedBy.Truthy() ==> r == "jimmy"
  {
    var raw := if body.Truthy() then body.s
      else if xUser.Truthy() then xUser.s
      else if xUserId.Truthy() then xUserId.s
      else if xCreatedBy.Truthy() then xCreatedBy.s
      else "";
    assert TrimStart("") == "";
    CreatorFrom(raw)
  }

  /** `data.nextTicketNumber || 1`: the number the new item gets; the counter then holds one more. */
  function TicketNumber(counter: nat): (n: nat)
    ensures n >= 1 && n >= counter
    ensures counter != 0 ==> n == counter
  {
    if counter == 0 then 1 else counter
  }

  // ---------------------------------------------------------------------------
  // Update
  // ---------------------------------------------------------------------------

  /** The keys whose value differs under `!==`, with their old and new values. */
  function FieldChanges(item: Item, updates: map<Field, JsStr>): (changes: map<Field, Events.FieldChange>)
    ensures forall f :: f in changes <==> f in updates && item.Get(f) != updates[f]
    ensures forall f :: f in changes ==> changes[f] == Events.FieldChange(item.Get(f), updates[f])
  {
    map f | f in updates && item.Get(f) != updates[f] :: Events.FieldChange(item.Get(f), updates[f])
  }

  /** A present `tags` key is always a change: the normalised list is a fresh array, never `===` the old one. */
  function TagsChangeOf(item: Item, tags: Option<seq<string>>): (c: Option<Events.TagsChange>)
    ensures c.Some? <==> tags.Some?
    ensures tags.Some? ==> c.value == Events.TagsChange(item.tags, tags.value)
  {
    if tags.Some? then Some(Events.TagsChange(item.tags, tags.value)) else None
  }

  /** True when some key of the update differs, so ITEM_UPDATED is emitted. */
  predicate HasChanges(item: Item, updates: map<Field, JsStr>, tags: Option<seq<string>>) {
    |FieldChanges(item, updates)| > 0 || TagsChangeOf(item, tags).Some?
  }

  /** ITEM_UPDATED is emitted exactly when a tags key is present or some field value differs. */
  lemma HasChangesIff(item: Item, updates: map<Field, JsStr>, tags: Option<seq<string>>)
    ensures HasChanges(item, updates, tags) <==> tags.Some? || exists f :: f in updates && item.Get(f) != updates[f]
  {
    var changes := FieldChanges(item, updates);
    if exists f :: f in updates && item.Get(f) != updates[f] {
      var f :| f in updates && item.Get(f) != updates[f];
      assert f in changes;
    }
    if |changes| > 0 {
      var f :| f in changes;
    }
  }

  /** True when the update carries `key` with a value other than the item's (`!==`). */
  predicate ChangesField(item: Item, updates: map<Field, JsStr>, key: Field) {
    key in updates && updates[key] != item.Get(key)
  }

  /** The auto-comment text for a new assignee. */
  function AssignText(v: JsStr): (t: string)
    ensures v.Truthy() ==> t == "Assigned to " + Constants.GetUserName(v.s)
    ensures !v.Truthy() ==> t == "Unassigned"
  {
    if v.Truthy() then "Assigned to " + Constants.GetUserName(v.s) else "Unassigned"
  }

  /** The auto-comment text for a new blocker. */
  function BlockText(v: JsStr): (t: string)
    ensures v.Truthy() ==> t == "Blocked by " + Constants.GetUserName(v.s)
    ensures !v.Truthy() ==> t == "Unblocked"
  {
    if v.Truthy() then "Blocked by " + Constants.GetUserName(v.s) else "Unblocked"
  }

  /** `{ ...item, ...updates }` after the auto-comments were pushed. */
  function Merge(item: Item, updates: map<Field, JsStr>, tags: Option<seq<string>>, autoComments: seq<Comment>): (r: Item)
    ensures forall f :: r.Get(f) == if f in updates then updates[f] else item.Get(f)
    ensures r.tags == if tags.Some? then tags.value else item.tags
    ensures r.comments == item.comments + autoComments
    ensures r.id == item.id && r.number == item.number && r.createdAt == item.createdAt
    ensures r.subtasks == item.subtasks && r.stageHistory == item.stageHistory
  {
    item.(fields := item.fields + updates, tags := if tags.Some? then tags.value else item.tags,
          comments := item.comments + autoComments)
  }

  // ---------------------------------------------------------------------------
  // Move
  // ---------------------------------------------------------------------------

  /** `movedBy || item.assignee || 'unknown'`. */
  function MoveActor(movedBy: JsStr, assignee: JsStr): (a: string)
    ensures a != ""
    ensures movedBy.Truthy() ==> a == movedBy.s
    ensures !movedBy.Truthy() && assignee.Truthy() ==> a == assignee.s
    ensures !movedBy.Truthy() && !assignee.Truthy() ==> a == "unknown"
  {
    if movedBy.Truthy() then movedBy.s else if assignee.Truthy() then assignee.s else "unknown"
  }

  /** `id.charAt(0).toUpperCase() + id.slice(1)`. */
  function Capitalized(id: string): (r: string)
    ensures |r| == |id| && (id != [] ==> r[0] == UpperChar(id[0]) && r[1..] == id[1..])
  {
    if id == [] then [] else [UpperChar(id[0])] + id[1..]
  }

  lemma CapitalizedColumns()
    ensures Capitalized("done") == "Done" && Capitalized("review") == "Review" && Capitalized("doing") == "Doing"
    ensures Capitalized("todo") == "Todo" && Capitalized("backlog") == "Backlog"
  {
  }

  /**
   * The requested insert index: an explicit numeric `position` verbatim, otherwise the top
   * of `done` or the end of any other column (counted after the item was taken out).
   */
  function RequestedIndex(position: Option<int>, toColumnId: string, len: nat): (k: int)
    ensures position.Some? ==> k == position.value
    ensures position.None? && toColumnId == "done" ==> k == 0
    ensures position.None? && toColumnId != "done" ==> k == len
  {
    if position.Some? then position.value else if toColumnId == "done" then 0 else len
  }

  /** The text of the move auto-comment. */
  function MoveText(toColumnId: string, actor: string): string {
    "Moved to " + Capitalized(toColumnId) + " by " + Constants.GetUserName(actor)
  }

  /** A move to another column appends one stage entry and one comment; a reorder changes nothing. */
  function MovedItem(item: Item, crossColumn: bool, toColumnId: string, comment: Comment, now: int): (r: Item)
    ensures crossColumn ==> r == item.(stageHistory := item.stageHistory + [StageEntry(toColumnId, now)],
                                       comments := item.comments + [comment])
    ensures !crossColumn ==> r == item
    ensures r.id == item.id && r.tags == item.tags && r.stageHistory[..|item.stageHistory|] == item.stageHistory
  {
    if crossColumn then
      item.(stageHistory := item.stageHistory + [StageEntry(toColumnId, now)], comments := item.comments + [comment])
    else item
  }

  // ---------------------------------------------------------------------------
  // Mentions
  // ---------------------------------------------------------------------------

  /** The three agents a comment can address. */
  datatype Agent = Pm | Dev | Qa {
    function Name(): string {
      match this
      case Pm => "pm"
      case Dev => "dev"
      case Qa => "qa"
    }
  }

  /** The alternatives of the mention pattern, in order, with the agent `mentionMap` gives each. */
  const Aliases: seq<(string, Agent)> := [
    ("jimmy", Pm), ("pm", Pm), ("claude", Pm),
    ("dev", Dev), ("codex", Dev),
    ("qa", Qa), ("gemini", Qa)
  ]

  /** `@alias` starts at i, letters compared without case, followed by a non-word character or the end (`\b`). */
  predicate AliasAt(text: string, i: nat, alias: string) {
    && i < |text| && text[i] == '@'
    && i + 1 + |alias| <= |text|
    && EqualsIgnoreCase(text[i + 1..i + 1 + |alias|], alias)
    && (i + 1 + |alias| == |text| || !IsWordChar(text[i + 1 + |alias|]))
  }

  /**
   * What the scan needs of an alias table: aliases of lower-case letters only, no two the same.
   * Then no alias can match where another one does (see AtMostOneAlias).
   */
  predicate LetterAliases(table: seq<(string, Agent)>) {
    && (forall k, j :: 0 <= k < |table| && 0 <= j < |table[k].0| ==> 'a' <= table[k].0[j] <= 'z')
    && (forall k1, k2 :: 0 <= k1 < k2 < |table| ==> table[k1].0 != table[k2].0)
  }

  lemma AliasesAreLetters()
    ensures LetterAliases(Aliases)
  {
  }

  /** The index of the first alternative of the table, from `from` on, that matches at i. */
  function MatchAt(table: seq<(string, Agent)>, text: string, i: nat, from: nat): (r: Option<nat>)
    requires from <= |table|
    ensures r.Some? ==> from <= r.value < |table|
    decreases |table| - from
  {
    if from == |table| then None
    else if AliasAt(text, i, table[from].0) then Some(from)
    else MatchAt(table, text, i, from + 1)
  }

  /** What is found does match there. */
  lemma {:induction false} MatchAtSome(table: seq<(string, Agent)>, text: string, i: nat, from: nat)
    requires from <= |table| && MatchAt(table, text, i, from).Some?
    ensures AliasAt(text, i, table[MatchAt(table, text, i, from).value].0)
    decreases |table| - from
  {
    if !AliasAt(text, i, table[from].0) {
      MatchAtSome(table, text, i, from + 1);
    }
  }

  /** When nothing is found, no alternative from `from` on matches. */
  lemma {:induction false} MatchAtNone(table: seq<(string, Agent)>, text: string, i: nat, from: nat)
    requires from <= |table| && MatchAt(table, text, i, from).None?
    ensures forall k :: from <= k < |table| ==> !AliasAt(text, i, table[k].0)
    decreases |table| - from
  {
    if from < |table| {
      MatchAtNone(table, text, i, from + 1);
    }
  }

  /** Inside a match of an alias made of letters, every character is a word character. */
  lemma LetterInsideMatch(text: string, i: nat, a: string, n: nat)
    requires forall j :: 0 <= j < |a| ==> 'a' <= a[j] <= 'z'
    requires AliasAt(text, i, a) && n < |a|
    ensures IsWordChar(text[i + 1 + n])
  {
    assert LowerChar(text[i + 1..i + 1 + |a|][n]) == LowerChar(a[n]);
    assert text[i + 1..i + 1 + |a|][n] == text[i + 1 + n];
  }

  /** At most one alternative of such a table matches at a position. */
  lemma AtMostOneAlias(table: seq<(string, Agent)>, text: string, i: nat, k1: nat, k2: nat)
    requires LetterAliases(table) && k1 < |table| && k2 < |table|
    requires AliasAt(text, i, table[k1].0) && AliasAt(text, i, table[k2].0)
    ensures k1 == k2
  {
    var a1, a2 := table[k1].0, table[k2].0;
    if |a1| < |a2| {
      LetterInsideMatch(text, i, a2, |a1|);
    } else if |a2| < |a1| {
      LetterInsideMatch(text, i, a1, |a2|);
    } else {
      assert forall j :: 0 <= j < |a1| ==> LowerChar(a1[j]) == LowerChar(a2[j]);
      assert forall j :: 0 <= j < |a1| ==> a1[j] == a2[j];
      assert a1 == a2;
    }
  }

  /**
   * `text.matchAll(mentionRegex)` mapped through `mentionMap`, scanning from i with the given
   * alias table; a match resumes after itself.
   */
  function MentionsFrom(table: seq<(string, Agent)>, text: string, i: nat): seq<Agent>
    decreases |text| - i
  {
    if i >= |text| then []
    else match MatchAt(table, text, i, 0)
      case Some(k) => [table[k].1] + MentionsFrom(table, text, i + 1 + |table[k].0|)
      case None => MentionsFrom(table, text, i + 1)
  }

  /** The agents mentioned in a comment, in order, with repeats. */
  function Mentions(text: string): seq<Agent> {
    MentionsFrom(Aliases, text, 0)
  }

  /** No match starts inside the letters of an earlier match, so resuming after it misses nothing. */
  lemma {:induction false} SkipInsideMatch(table: seq<(string, Agent)>, text: string, i: nat, j: nat, k: nat)
    requires LetterAliases(table) && k < |table| && AliasAt(text, i, table[k].0)
    requires i < j <= i + |table[k].0|
    ensures MatchAt(table, text, j, 0).None?
  {
    LetterInsideMatch(text, i, table[k].0, j - i - 1);
    if MatchAt(table, text, j, 0).Some? {
      MatchAtSome(table, text, j, 0);
    }
  }

  /** Some alias of the agent matches at p. */
  predicate MentionAt(table: seq<(string, Agent)>, text: string, p: nat, agent: Agent) {
    exists k :: 0 <= k < |table| && AliasAt(text, p, table[k].0) && table[k].1 == agent
  }

  /** The scan's first matching alternative at p belongs to the agent. */
  predicate ScanFinds(table: seq<(string, Agent)>, text: string, p: nat, agent: Agent) {
    MatchAt(table, text, p, 0).Some? && table[MatchAt(table, text, p, 0).value].1 == agent
  }

  /** The first matching alternative at p is the only one, so it decides which agent is mentioned there. */
  lemma MentionAtMatch(table: seq<(string, Agent)>, text: string, p: nat, agent: Agent)
    requires LetterAliases(table)
    ensures MentionAt(table, text, p, agent) <==> ScanFinds(table, text, p, agent)
  {
    var m := MatchAt(table, text, p, 0);
    if m.Some? {
      MatchAtSome(table, text, p, 0);
    }
    if MentionAt(table, text, p, agent) {
      var k :| 0 <= k < |table| && AliasAt(text, p, table[k].0) && table[k].1 == agent;
      if m.None? {
        MatchAtNone(table, text, p, 0);
      } else {
        AtMostOneAlias(table, text, p, k, m.value);
      }
    }
  }

  /** Every agent the scan from i reports is found by the scan at some position from i on. */
  lemma {:induction false} MentionedFromSound(table: seq<(string, Agent)>, text: string, i: nat, agent: Agent)
    requires agent in MentionsFrom(table, text, i)
    ensures exists p :: i <= p < |text| && ScanFinds(table, text, p, agent)
    decreases |text| - i
  {
    match MatchAt(table, text, i, 0)
    case Some(k) =>
      if table[k].1 != agent {
        MentionedFromSound(table, text, i + 1 + |table[k].0|, agent);
      } else {
        assert ScanFinds(table, text, i, agent);
      }
    case None =>
      MentionedFromSound(table, text, i + 1, agent);
  }

  /** A match after a match at i starts at or beyond the end of that match. */
  lemma MatchAfterMatch(table: seq<(string, Agent)>, text: string, i: nat, p: nat)
    requires LetterAliases(table)
    requires MatchAt(table, text, i, 0).Some? && i < p && MatchAt(table, text, p, 0).Some?
    ensures i + 1 + |table[MatchAt(table, text, i, 0).value].0| <= p
  {
    var k := MatchAt(table, text, i, 0).value;
    MatchAtSome(table, text, i, 0);
    if p <= i + |table[k].0| {
      SkipInsideMatch(table, text, i, p, k);
    }
  }

  /** A match at i reports its agent and resumes after itself. */
  lemma MentionsFromMatch(table: seq<(string, Agent)>, text: string, i: nat, agent: Agent)
    requires i < |text| && MatchAt(table, text, i, 0).Some?
    ensures var k := MatchAt(table, text, i, 0).value;
      agent in MentionsFrom(table, text, i) <==> agent == table[k].1 || agent in MentionsFrom(table, text, i + 1 + |table[k].0|)
  {
  }

  /** No match at i: the scan moves on by one. */
  lemma MentionsFromNoMatch(table: seq<(string, Agent)>, text: string, i: nat, agent: Agent)
    requires i < |text| && MatchAt(table, text, i, 0).None?
    ensures agent in MentionsFrom(table, text, i) <==> agent in MentionsFrom(table, text, i + 1)
  {
  }

  /** What the scan finds at p, at or after i, is reported by the scan from i. */
  lemma {:induction false} MentionedFromComplete(table: seq<(string, Agent)>, text: string, i: nat, p: nat, agent: Agent)
    requires LetterAliases(table)
    requires i <= p < |text| && ScanFinds(table, text, p, agent)
    ensures agent in MentionsFrom(table, text, i)
    decreases |text| - i
  {
    var m := MatchAt(table, text, i, 0);
    if m.Some? {
      MentionsFromMatch(table, text, i, agent);
      if p != i {
        MatchAfterMatch(table, text, i, p);
        MentionedFromComplete(table, text, i + 1 + |table[m.value].0|, p, agent);
      }
    } else {
      MentionsFromNoMatch(table, text, i, agent);
      MentionedFromComplete(table, text, i + 1, p, agent);
    }
  }

  /** An agent is mentioned exactly when one of its aliases matches at some position from i on. */
  lemma MentionedFromIff(table: seq<(string, Agent)>, text: string, i: nat, agent: Agent)
    requires LetterAliases(table)
    ensures agent in MentionsFrom(table, text, i) <==> exists p :: i <= p < |text| && MentionAt(table, text, p, agent)
  {
    if agent in MentionsFrom(table, text, i) {
      MentionedFromSound(table, text, i, agent);
      var p :| i <= p < |text| && ScanFinds(table, text, p, agent);
      MentionAtMatch(table, text, p, agent);
    }
    if exists p :: i <= p < |text| && MentionAt(table, text, p, agent) {
      var p :| i <= p < |text| && MentionAt(table, text, p, agent);
      MentionAtMatch(table, text, p, agent);
      MentionedFromComplete(table, text, i, p, agent);
    }
  }

  /** `[...new Set(list)]`: each element once, in order of first occurrence. */
  function Dedupe(list: seq<Agent>): (r: seq<Agent>)
    ensures forall j, k :: 0 <= j < k < |r| ==> r[j] != r[k]
    ensures forall a :: a in r <==> a in list
  {
    if list == [] then []
    else
      var earlier := Dedupe(list[..|list| - 1]);
      assert list == list[..|list| - 1] + [list[|list| - 1]];
      if list[|list| - 1] in earlier then earlier else earlier + [list[|list| - 1]]
  }

  /** The index of the first occurrence. */
  function FirstIndex(list: seq<Agent>, a: Agent): (i: nat)
    requires a in list
    ensures i < |list| && list[i] == a && forall j :: 0 <= j < i ==> list[j] != a
  {
    if list[0] == a then 0 else 1 + FirstIndex(list[1..], a)
  }

  /** The kept elements appear in the order of their first mentions. */
  lemma {:induction false} DedupeFirstOrder(list: seq<Agent>)
    ensures forall j, k :: 0 <= j < k < |Dedupe(list)| ==>
      FirstIndex(list, Dedupe(list)[j]) < FirstIndex(list, Dedupe(list)[k])
  {
    if list != [] {
      var front := list[..|list| - 1];
      var last := list[|list| - 1];
      DedupeFirstOrder(front);
      var earlier := Dedupe(front);
      var r := Dedupe(list);
      forall a | a in front
        ensures FirstIndex(list, a) == FirstIndex(front, a)
      {
        FirstIndexPrefix(front, last, a);
      }
      if last !in earlier {
        forall j | 0 <= j < |earlier|
          ensures FirstIndex(list, r[j]) < FirstIndex(list, last)
        {
          assert r[j] == earlier[j];
          assert last !in front;
        }
      }
    }
  }

  lemma {:induction false} FirstIndexPrefix(front: seq<Agent>, last: Agent, a: Agent)
    requires a in front
    ensures FirstIndex(front + [last], a) == FirstIndex(front, a)
  {
    if front[0] != a {
      assert (front + [last])[1..] == front[1..] + [last];
      FirstIndexPrefix(front[1..], last, a);
    }
  }

  /** The agents a comment notifies, once each. */
  function MentionedAgents(text: string): seq<Agent> {
    Dedupe(Mentions(text))
  }

  /** `kenny_comment` is raised only when no agent was mentioned and the author is exactly `kenny`. */
  predicate RaisesKennyComment(agents: seq<Agent>, author: JsStr) {
    agents == [] && author == Str("kenny")
  }

  // ---------------------------------------------------------------------------
  // Subtasks
  // ---------------------------------------------------------------------------

  /** A boolean `completed` that differs, and a defined `text` that differs (`!==`), are applied and reported. */
  function UpdateSubtask(st: Subtask, completed: Option<bool>, text: JsStr): (r: (Subtask, Option<(bool, bool)>, Option<Events.FieldChange>))
    ensures r.1.Some? <==> completed.Some? && completed.value != st.completed
    ensures r.1.Some? ==> r.1.value == (st.completed, completed.value)
    ensures r.2.Some? <==> text != Undefined && text != st.text
    ensures r.2.Some? ==> r.2.value == Events.FieldChange(st.text, text)
    ensures r.0 == st.(completed := if completed.Some? then completed.value else st.completed,
                       text := if text != Undefined then text else st.text)
  {
    var completedChange := if completed.Some? && completed.value != st.completed then Some((st.completed, completed.value)) else None;
    var textChange := if text != Undefined && text != st.text then Some(Events.FieldChange(st.text, text)) else None;
    var updated := st.(completed := if completedChange.Some? then completed.value else st.completed,
                       text := if textChange.Some? then text else st.text);
    (updated, completedChange, textChange)
  }

  /** `subtasks.find(s => s.id === id)` / `findIndex`. */
  function IndexOfSubtask(subtasks: seq<Subtask>, id: string): (r: Option<nat>)
    ensures r.Some? ==> r.value < |subtasks| && subtasks[r.value].id == id
    ensures r.Some? ==> forall j :: 0 <= j < r.value ==> subtasks[j].id != id
    ensures r.None? ==> forall j :: 0 <= j < |subtasks| ==> subtasks[j].id != id
  {
    if subtasks == [] then None
    else if subtasks[0].id == id then Some(0)
    else match IndexOfSubtask(subtasks[1..], id)
      case None => None
      case Some(k) => Some(k + 1)
  }
}
