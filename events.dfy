/**
 * The audit event stream of kanban/lib/events.js: the closed set of event types, the
 * event record, the append that keeps only the newest 1000 events, and the
 * filter/sort/limit query.
 */
module Events {
  import opened Wrappers
  import opened BoardTypes
  import Data

  /** `EventTypes`: each value is the name of its key. */
  datatype EventType =
    | ITEM_CREATED | ITEM_UPDATED | ITEM_MOVED | ITEM_DELETED
    | COMMENT_ADDED | SUBTASK_ADDED | SUBTASK_UPDATED | SUBTASK_DELETED
    | ITEM_ASSIGNED | ITEM_BLOCKED | ITEM_UNBLOCKED
    | AGENT_MENTIONED
  {
    /** The string stored in an event's `type` and compared by the `type` filter. */
    function Name(): string {
      match this
      case ITEM_CREATED => "ITEM_CREATED"
      case ITEM_UPDATED => "ITEM_UPDATED"
      case ITEM_MOVED => "ITEM_MOVED"
      case ITEM_DELETED => "ITEM_DELETED"
      case COMMENT_ADDED => "COMMENT_ADDED"
      case SUBTASK_ADDED => "SUBTASK_ADDED"
      case SUBTASK_UPDATED => "SUBTASK_UPDATED"
      case SUBTASK_DELETED => "SUBTASK_DELETED"
      case ITEM_ASSIGNED => "ITEM_ASSIGNED"
      case ITEM_BLOCKED => "ITEM_BLOCKED"
      case ITEM_UNBLOCKED => "ITEM_UNBLOCKED"
      case AGENT_MENTIONED => "AGENT_MENTIONED"
    }
  }

  /** The keys of `EventTypes`, in declaration order. */
  const AllEventTypes: seq<EventType> := [
    ITEM_CREATED, ITEM_UPDATED, ITEM_MOVED, ITEM_DELETED,
    COMMENT_ADDED, SUBTASK_ADDED, SUBTASK_UPDATED, SUBTASK_DELETED,
    ITEM_ASSIGNED, ITEM_BLOCKED, ITEM_UNBLOCKED,
    AGENT_MENTIONED
  ]

  /** Looks a type up by its name, as the `type` filter does. */
  function TypeNamed(name: string): (r: Option<EventType>)
    ensures r.Some? ==> r.value.Name() == name && r.value in AllEventTypes
  {
    if name == "ITEM_CREATED" then Some(ITEM_CREATED)
    else if name == "ITEM_UPDATED" then Some(ITEM_UPDATED)
    else if name == "ITEM_MOVED" then Some(ITEM_MOVED)
    else if name == "ITEM_DELETED" then Some(ITEM_DELETED)
    else if name == "COMMENT_ADDED" then Some(COMMENT_ADDED)
    else if name == "SUBTASK_ADDED" then Some(SUBTASK_ADDED)
    else if name == "SUBTASK_UPDATED" then Some(SUBTASK_UPDATED)
    else if name == "SUBTASK_DELETED" then Some(SUBTASK_DELETED)
    else if name == "ITEM_ASSIGNED" then Some(ITEM_ASSIGNED)
    else if name == "ITEM_BLOCKED" then Some(ITEM_BLOCKED)
    else if name == "ITEM_UNBLOCKED" then Some(ITEM_UNBLOCKED)
    else if name == "AGENT_MENTIONED" then Some(AGENT_MENTIONED)
    else None
  }

  /** The set is closed: exactly 12 types, and every type is listed. */
  lemma EventTypesClosed(t: EventType)
    ensures t in AllEventTypes && |AllEventTypes| == 12
  {
    assert AllEventTypes[Position(t)] == t;
  }

  /** Each type is found again by its name. */
  lemma TypeNamedName(t: EventType)
    ensures TypeNamed(t.Name()) == Some(t)
  {
  }

  /** Where a type sits in the list. */
  function Position(t: EventType): (i: nat)
    ensures i < |AllEventTypes| && AllEventTypes[i] == t
  {
    match t
    case ITEM_CREATED => 0
    case ITEM_UPDATED => 1
    case ITEM_MOVED => 2
    case ITEM_DELETED => 3
    case COMMENT_ADDED => 4
    case SUBTASK_ADDED => 5
    case SUBTASK_UPDATED => 6
    case SUBTASK_DELETED => 7
    case ITEM_ASSIGNED => 8
    case ITEM_BLOCKED => 9
    case ITEM_UNBLOCKED => 10
    case AGENT_MENTIONED => 11
  }

  /** The list holds each type once. */
  lemma PositionOfListed()
    ensures forall i :: 0 <= i < |AllEventTypes| ==> Position(AllEventTypes[i]) == i
  {
  }

  /** No two listed types share a name. */
  lemma EventTypeNamesDistinct()
    ensures forall j, k :: 0 <= j < k < |AllEventTypes| ==> AllEventTypes[j].Name() != AllEventTypes[k].Name()
  {
    PositionOfListed();
    forall j, k | 0 <= j < k < |AllEventTypes|
      ensures AllEventTypes[j].Name() != AllEventTypes[k].Name()
    {
      TypeNamedName(AllEventTypes[j]);
      TypeNamedName(AllEventTypes[k]);
    }
  }

  // ---------------------------------------------------------------------------
  // Payloads
  // ---------------------------------------------------------------------------

  /** `{ from, to }` for one changed item field. */
  datatype FieldChange = FieldChange(from: JsStr, to: JsStr)

  /** `{ from, to }` for the tags, which are lists. */
  datatype TagsChange = TagsChange(from: seq<string>, to: seq<string>)

  /** The event-specific part of a payload. */
  datatype EventInfo =
    | Created(column: string, priority: string, assignee: string, tags: seq<string>)
    | Updated(fieldChanges: map<Field, FieldChange>, tagsChange: Option<TagsChange>)
    | Moved(fromColumn: string, toColumn: string)
    | Deleted(fromColumn: string)
    | CommentAdded(commentId: string, commentText: string)
    | SubtaskAdded(subtaskId: string, subtaskText: JsStr)
    | SubtaskUpdated(subtaskId: string, completedChange: Option<(bool, bool)>, textChange: Option<FieldChange>)
    | SubtaskDeleted(subtaskId: string, subtaskText: JsStr)
    | Assigned(fromAssignee: JsStr, toAssignee: JsStr)
    | Blocked(blockedBy: string)
    | Unblocked(wasBlockedBy: JsStr)
    | Mentioned(commentId: string, targetAgent: string)

  /** Every payload names the item; the title is `title` or `itemTitle`, absent for subtask updates and deletes. */
  datatype Payload = Payload(itemId: string, itemNumber: nat, title: JsStr, info: EventInfo)

  /** A stored event; `timestamp` is in milliseconds. */
  datatype Event = Event(id: string, eventType: EventType, timestamp: int, actor: string, payload: Payload)

  /** The payload shape that goes with each type. */
  predicate InfoFits(t: EventType, info: EventInfo) {
    match t
    case ITEM_CREATED => info.Created?
    case ITEM_UPDATED => info.Updated?
    case ITEM_MOVED => info.Moved?
    case ITEM_DELETED => info.Deleted?
    case COMMENT_ADDED => info.CommentAdded?
    case SUBTASK_ADDED => info.SubtaskAdded?
    case SUBTASK_UPDATED => info.SubtaskUpdated?
    case SUBTASK_DELETED => info.SubtaskDeleted?
    case ITEM_ASSIGNED => info.Assigned?
    case ITEM_BLOCKED => info.Blocked?
    case ITEM_UNBLOCKED => info.Unblocked?
    case AGENT_MENTIONED => info.Mentioned?
  }

  // ---------------------------------------------------------------------------
  // The capped log
  // ---------------------------------------------------------------------------

  const MaxEvents := 1000

  /** `if (events.length > 1000) events = events.slice(-1000)`. */
  function Retain(events: seq<Event>): (r: seq<Event>)
    ensures |r| <= MaxEvents || r == events
  {
    if |events| > MaxEvents then events[|events| - MaxEvents..] else events
  }

  /** What the cap keeps: everything below the limit, otherwise the newest 1000 in order. */
  lemma RetainKeepsNewest(events: seq<Event>)
    ensures |events| <= MaxEvents ==> Retain(events) == events
    ensures |events| > MaxEvents ==> |Retain(events)| == MaxEvents
    ensures |events| > MaxEvents ==> forall k :: 0 <= k < MaxEvents ==> Retain(events)[k] == events[|events| - MaxEvents + k]
  {
  }

  /** One append at the cap drops exactly the oldest event. */
  lemma AppendAtCapDropsOldest(events: seq<Event>, e: Event)
    requires |events| == MaxEvents
    ensures Retain(events + [e]) == events[1..] + [e]
  {
  }

  /** The cap can be applied after every append or once at the end: the newest 1000 survive either way. */
  lemma RetainRetain(events: seq<Event>, more: seq<Event>)
    ensures Retain(Retain(events) + more) == Retain(events + more)
  {
    if |events| > MaxEvents && more != [] {
      var b := events + more;
      var a := events[|events| - MaxEvents..] + more;
      assert a == b[|events| - MaxEvents..];
      assert a[|a| - MaxEvents..] == b[|b| - MaxEvents..];
    }
  }

  /** An event as a handler asks for it: the arguments of one `addEvent(type, payload, actor)` call. */
  datatype Draft = Draft(eventType: EventType, payload: Payload, actor: string)

  /** The events a run of `addEvent` calls creates: consecutive ids, one timestamp. */
  function Stamped(drafts: seq<Draft>, serial: nat, now: int): (r: seq<Event>)
    ensures |r| == |drafts|
  {
    if drafts == [] then []
    else
      var d := drafts[|drafts| - 1];
      Stamped(drafts[..|drafts| - 1], serial, now) + [Event(Data.UniqueId("evt", serial + |drafts| - 1), d.eventType, now, d.actor, d.payload)]
  }

  /** The k-th appended entry carries the k-th id after the counter. */
  lemma {:induction false} StampedAt(drafts: seq<Draft>, serial: nat, now: int)
    ensures forall k :: 0 <= k < |drafts| ==> Stamped(drafts, serial, now)[k] == Event(Data.UniqueId("evt", serial + k), drafts[k].eventType, now, drafts[k].actor, drafts[k].payload)
  {
    if drafts != [] {
      StampedAt(drafts[..|drafts| - 1], serial, now);
    }
  }

  /** The log after a run of `addEvent` calls: unchanged for none, otherwise appended and capped. */
  function LogAfter(before: seq<Event>, serial: nat, drafts: seq<Draft>, now: int): (r: seq<Event>)
    ensures drafts == [] ==> r == before
    ensures drafts != [] ==> r == Retain(before + Stamped(drafts, serial, now))
  {
    if drafts == [] then before else Retain(before + Stamped(drafts, serial, now))
  }

  lemma StampedStep(drafts: seq<Draft>, d: Draft, serial: nat, now: int)
    ensures Stamped(drafts + [d], serial, now)
         == Stamped(drafts, serial, now) + [Event(Data.UniqueId("evt", serial + |drafts|), d.eventType, now, d.actor, d.payload)]
  {
  }

  /** One more `addEvent` call extends the run: capping after each append is capping once. */
  lemma LogAfterStep(before: seq<Event>, serial: nat, drafts: seq<Draft>, d: Draft, now: int)
    ensures LogAfter(before, serial, drafts + [d], now)
         == Retain(LogAfter(before, serial, drafts, now) + [Event(Data.UniqueId("evt", serial + |drafts|), d.eventType, now, d.actor, d.payload)])
  {
    var e := Event(Data.UniqueId("evt", serial + |drafts|), d.eventType, now, d.actor, d.payload);
    var earlier := Stamped(drafts, serial, now);
    StampedStep(drafts, d, serial, now);
    if drafts != [] {
      RetainRetain(before + earlier, [e]);
      assert before + earlier + [e] == before + (earlier + [e]);
    } else {
      assert earlier == [];
      assert before + (earlier + [e]) == before + [e];
    }
  }

  /** `readEvents()`: an unreadable or missing file reads as an empty log. */
  function ReadEvents(file: Option<seq<Event>>): (events: seq<Event>)
    ensures file.None? ==> events == []
    ensures file.Some? ==> events == file.value
  {
    if file.Some? then file.value else []
  }

  /** The events file, and the counter fresh event ids are drawn from. */
  class EventLog {
    /** The stored document; None when the file is missing or not valid JSON. */
    var file: Option<seq<Event>>
    var serial: nat

    function Events(): seq<Event>
      reads this
    {
      ReadEvents(file)
    }

    constructor(stored: Option<seq<Event>>)
      ensures file == stored && serial == 0
    {
      file := stored;
      serial := 0;
    }

    /**
     * `addEvent(type, payload, actor = 'system')`: read, append, cap, write, and return
     * the new event, stamped with `now`.
     */
    method AddEvent(eventType: EventType, payload: Payload, actor: Option<string>, now: int) returns (e: Event)
      modifies this
      ensures e == Event(Data.UniqueId("evt", old(serial)), eventType, now,
                         if actor.Some? then actor.value else "system", payload)
      ensures file == Some(Retain(old(Events()) + [e]))
      ensures serial == old(serial) + 1
      ensures |Events()| <= MaxEvents
      ensures Events()[|Events()| - 1] == e
      ensures |old(Events())| < MaxEvents ==> Events() == old(Events()) + [e]
    {
      var events := ReadEvents(file);
      e := Event(Data.UniqueId("evt", serial), eventType, now, if actor.Some? then actor.value else "system", payload);
      serial := serial + 1;
      events := events + [e];
      if |events| > MaxEvents {
        events := events[|events| - MaxEvents..];
      }
      file := Some(events);
    }
  }

  // ---------------------------------------------------------------------------
  // The query
  // ---------------------------------------------------------------------------

  /** `filters.since`: absent, a parseable time, or a string `new Date` cannot parse (NaN). */
  datatype Since = NoSince | After(time: int) | Unparseable

  /**
   * The filters of `getEvents`. An empty string is an absent (falsy) filter; the limit is
   * None when absent or NaN.
   */
  datatype Filters = Filters(eventType: string, actor: string, itemId: string, since: Since, limit: Option<int>)

  /** The conjunction of the filters applied in turn; NaN compares false, so Unparseable keeps nothing. */
  predicate Matches(e: Event, f: Filters) {
    && (f.eventType != "" ==> e.eventType.Name() == f.eventType)
    && (f.actor != "" ==> e.actor == f.actor)
    && (f.itemId != "" ==> e.payload.itemId == f.itemId)
    && (f.since.After? ==> e.timestamp > f.since.time)
    && !f.since.Unparseable?
  }

  /** The filter steps, keeping the matching events in log order. */
  function FilterEvents(events: seq<Event>, f: Filters): (r: seq<Event>)
    ensures |r| <= |events|
    ensures forall k :: 0 <= k < |r| ==> Matches(r[k], f)
    ensures multiset(r) <= multiset(events)
  {
    if events == [] then []
    else
      var rest := FilterEvents(events[..|events| - 1], f);
      assert events == events[..|events| - 1] + [events[|events| - 1]];
      if Matches(events[|events| - 1], f) then rest + [events[|events| - 1]] else rest
  }

  /** The matching events are exactly those that pass every filter. */
  lemma {:induction false} FilterEventsExact(events: seq<Event>, f: Filters)
    ensures forall e :: e in FilterEvents(events, f) <==> e in events && Matches(e, f)
  {
    if events != [] {
      FilterEventsExact(events[..|events| - 1], f);
      assert events == events[..|events| - 1] + [events[|events| - 1]];
    }
  }

  predicate NewestFirst(s: seq<Event>) {
    forall j, k :: 0 <= j < k < |s| ==> s[j].timestamp >= s[k].timestamp
  }

  /** Puts e after every event at least as new and before the first older one, which keeps the sort stable. */
  function InsertByTime(e: Event, sorted: seq<Event>): (r: seq<Event>)
    ensures multiset(r) == multiset(sorted) + multiset{e}
  {
    if sorted == [] then [e]
    else if sorted[0].timestamp < e.timestamp then [e] + sorted
    else
      assert sorted == [sorted[0]] + sorted[1..];
      [sorted[0]] + InsertByTime(e, sorted[1..])
  }

  /** Inserting into a newest-first list keeps it newest first. */
  lemma {:induction false} InsertByTimeSorted(e: Event, sorted: seq<Event>)
    requires NewestFirst(sorted)
    ensures NewestFirst(InsertByTime(e, sorted))
  {
    if sorted != [] && sorted[0].timestamp >= e.timestamp {
      var rest := InsertByTime(e, sorted[1..]);
      InsertByTimeSorted(e, sorted[1..]);
      forall x | x in rest
        ensures x.timestamp <= sorted[0].timestamp
      {
        assert x in multiset(rest);
        if x != e {
          assert x in multiset(sorted[1..]);
        }
      }
    }
  }

  /** `events.sort((a, b) => b.timestamp - a.timestamp)`, a stable sort newest first. */
  function SortNewestFirst(events: seq<Event>): (r: seq<Event>)
    ensures multiset(r) == multiset(events)
  {
    if events == [] then []
    else
      assert events == events[..|events| - 1] + [events[|events| - 1]];
      InsertByTime(events[|events| - 1], SortNewestFirst(events[..|events| - 1]))
  }

  lemma {:induction false} SortNewestFirstSorted(events: seq<Event>)
    ensures NewestFirst(SortNewestFirst(events))
  {
    if events != [] {
      SortNewestFirstSorted(events[..|events| - 1]);
      InsertByTimeSorted(events[|events| - 1], SortNewestFirst(events[..|events| - 1]));
    }
  }

  /** A list already newest first comes back unchanged: equal timestamps keep their log order. */
  lemma {:induction false} SortKeepsSortedList(events: seq<Event>)
    requires NewestFirst(events)
    ensures SortNewestFirst(events) == events
  {
    if events != [] {
      var front := events[..|events| - 1];
      SortKeepsSortedList(front);
      InsertAfterAll(events[|events| - 1], front);
    }
  }

  /** An event no newer than every element of a list goes to its end. */
  lemma {:induction false} InsertAfterAll(e: Event, s: seq<Event>)
    requires forall k :: 0 <= k < |s| ==> s[k].timestamp >= e.timestamp
    ensures InsertByTime(e, s) == s + [e]
  {
    if s != [] {
      InsertAfterAll(e, s[1..]);
      assert [s[0]] + (s[1..] + [e]) == s + [e];
    }
  }

  /** `filters.limit || 100`. */
  function EffectiveLimit(limit: Option<int>): (n: int)
    ensures limit.None? || limit == Some(0) ==> n == 100
    ensures limit.Some? && limit.value != 0 ==> n == limit.value
  {
    if limit.Some? && limit.value != 0 then limit.value else 100
  }

  /** `slice(0, n)`: a negative end counts from the back. */
  function SliceEnd(len: nat, n: int): (k: nat)
    ensures k <= len
    ensures n >= 0 ==> k == if n < len then n else len
    ensures n < 0 ==> k == if len + n > 0 then len + n else 0
  {
    if n >= 0 then (if n < len then n else len) else if len + n > 0 then len + n else 0
  }

  /** `getEvents(filters)`: filter, sort newest first, and keep the first `limit`. */
  function GetEvents(events: seq<Event>, f: Filters): (r: seq<Event>)
    ensures NewestFirst(r)
    ensures forall k :: 0 <= k < |r| ==> Matches(r[k], f)
    ensures multiset(r) <= multiset(events)
    ensures |r| == SliceEnd(|FilterEvents(events, f)|, EffectiveLimit(f.limit))
    ensures EffectiveLimit(f.limit) >= 0 ==> |r| <= EffectiveLimit(f.limit)
    ensures forall e, k :: e in multiset(FilterEvents(events, f)) - multiset(r) && 0 <= k < |r| ==> e.timestamp <= r[k].timestamp
  {
    var matching := FilterEvents(events, f);
    var sorted := SortNewestFirst(matching);
    SortNewestFirstSorted(matching);
    var n := SliceEnd(|sorted|, EffectiveLimit(f.limit));
    SortedPrefixMatches(matching, sorted, n, f);
    PrefixIsNewest(sorted, n);
    sorted[..n]
  }

  /** What a newest-first list loses when it is cut at n is no newer than anything it keeps. */
  lemma PrefixIsNewest(sorted: seq<Event>, n: nat)
    requires NewestFirst(sorted) && n <= |sorted|
    ensures forall e, k :: e in multiset(sorted) - multiset(sorted[..n]) && 0 <= k < n ==> e.timestamp <= sorted[..n][k].timestamp
  {
    assert sorted == sorted[..n] + sorted[n..];
    forall e, k | e in multiset(sorted) - multiset(sorted[..n]) && 0 <= k < n
      ensures e.timestamp <= sorted[..n][k].timestamp
    {
      assert e in multiset(sorted[n..]);
      var j :| n <= j < |sorted| && sorted[j] == e;
      assert sorted[..n][k] == sorted[k];
    }
  }

  /** A prefix of a reordering of matching events holds matching events only, drawn from them. */
  lemma SortedPrefixMatches(matching: seq<Event>, sorted: seq<Event>, n: nat, f: Filters)
    requires multiset(sorted) == multiset(matching) && n <= |sorted|
    requires forall k :: 0 <= k < |matching| ==> Matches(matching[k], f)
    ensures forall k :: 0 <= k < n ==> Matches(sorted[..n][k], f)
    ensures multiset(sorted[..n]) <= multiset(matching)
  {
    TakeIsSubMultiset(sorted, n);
    forall k | 0 <= k < n
      ensures Matches(sorted[..n][k], f)
    {
      assert sorted[..n][k] in multiset(matching);
    }
  }

  lemma TakeIsSubMultiset(s: seq<Event>, n: nat)
    requires n <= |s|
    ensures multiset(s[..n]) <= multiset(s)
  {
    assert s == s[..n] + s[n..];
  }

  /** The query returns exactly the matching events when they fit the limit. */
  lemma GetEventsComplete(events: seq<Event>, f: Filters)
    requires 0 <= |FilterEvents(events, f)| <= EffectiveLimit(f.limit)
    ensures multiset(GetEvents(events, f)) == multiset(FilterEvents(events, f))
    ensures forall e :: e in GetEvents(events, f) <==> e in events && Matches(e, f)
  {
    var matching := FilterEvents(events, f);
    var sorted := SortNewestFirst(matching);
    assert sorted[..|sorted|] == sorted;
    FilterEventsExact(events, f);
    forall e
      ensures e in GetEvents(events, f) <==> e in matching
    {
      assert e in GetEvents(events, f) <==> e in multiset(GetEvents(events, f));
      assert e in matching <==> e in multiset(matching);
    }
  }
}
