/**
 * The request checks of kanban/middleware/validation.js that are the application's own
 * code: the constant lists, the tags validator and its two sanitisers, and the
 * sanitiser and membership check shared by `assignee` and `blockedBy`.
 */
module Validation {
  import opened Wrappers
  import opened Text
  import opened BoardTypes
  import Constants
  import Data

  const ValidColumns: seq<string> := ["backlog", "todo", "doing", "review", "done"]
  const ValidPriorities: seq<string> := ["low", "medium", "high"]
  const ValidUsers: seq<string> := ["kenny", "jimmy"]

  /** `list.join(', ')`. */
  function JoinComma(list: seq<string>): string {
    if list == [] then ""
    else if |list| == 1 then list[0]
    else list[0] + ", " + JoinComma(list[1..])
  }

  /** The validator's column list is the board's column table. */
  lemma ValidColumnsAreTheBoardColumns()
    ensures ValidColumns == Constants.ColumnIds()
  {
    Constants.ColumnsAreFixed();
  }

  /** The membership message as it reads. */
  lemma UserListMessage()
    ensures JoinComma(ValidUsers) == "kenny, jimmy"
  {
    assert ValidUsers[1..] == ["jimmy"];
  }

  /** The priority message as it reads. */
  lemma PriorityListMessage()
    ensures JoinComma(ValidPriorities) == "low, medium, high"
  {
    var rest := ValidPriorities[1..];
    assert rest == ["medium", "high"] && rest[1..] == ["high"];
    assert JoinComma(rest) == "medium, high";
  }

  /** The column message as it reads. */
  lemma ColumnListMessage()
    ensures JoinComma(ValidColumns) == "backlog, todo, doing, review, done"
  {
    JoinFromTodo();
    assert ValidColumns[1..] == ["todo", "doing", "review", "done"];
  }

  /** The tail of the column message, from `todo` on. */
  lemma JoinFromTodo()
    ensures JoinComma(["todo", "doing", "review", "done"]) == "todo, doing, review, done"
  {
    JoinFromDoing();
    assert ["todo", "doing", "review", "done"][1..] == ["doing", "review", "done"];
  }

  /** The tail of the column message, from `doing` on. */
  lemma JoinFromDoing()
    ensures JoinComma(["doing", "review", "done"]) == "doing, review, done"
  {
    assert ["doing", "review", "done"][1..] == ["review", "done"];
    assert ["review", "done"][1..] == ["done"];
  }

  // ---------------------------------------------------------------------------
  // Tags
  // ---------------------------------------------------------------------------

  /** One element of a submitted `tags` array: a string, or any other JSON value. */
  datatype TagEntry = StrEntry(s: string) | NonString

  /** The submitted `tags` value: missing or `null`, an array, or any other JSON value. */
  datatype TagsValue = TagsMissing | TagsArray(entries: seq<TagEntry>) | TagsNotArray

  const MaxTags := 20
  const MaxTagLength := 30

  /**
   * An entry the loop lets through: a string whose trimmed `length`, counted in UTF-16 code
   * units as JavaScript does, is within the limit.
   */
  predicate EntryOk(e: TagEntry) {
    e.StrEntry? && Utf16Length(Trim(e.s)) <= MaxTagLength
  }

  /** The message of the first entry the `for` loop throws on, scanning from the front. */
  function EntryError(entries: seq<TagEntry>): (err: Option<string>)
    ensures err.None? <==> forall k :: 0 <= k < |entries| ==> EntryOk(entries[k])
    ensures err.Some? ==> err.value == "each tag must be a string" || err.value == "each tag must be at most 30 characters"
  {
    if entries == [] then None
    else match entries[0]
      case NonString => Some("each tag must be a string")
      case StrEntry(t) =>
        // A blank entry is skipped; it could not exceed the length limit anyway.
        if Utf16Length(Trim(t)) == 0 then EntryError(entries[1..])
        else if Utf16Length(Trim(t)) > MaxTagLength then Some("each tag must be at most 30 characters")
        else EntryError(entries[1..])
  }

  /**
   * The limit counts UTF-16 code units, not characters: sixteen emoji make a length of 32,
   * so a tag of them is rejected although it has only sixteen characters.
   */
  lemma AstralTagTooLong()
    ensures EntryError([StrEntry(seq(16, _ => '\U{1F600}'))]) == Some("each tag must be at most 30 characters")
  {
    var t := seq(16, _ => '\U{1F600}');
    assert !IsWhitespace(t[0]);
    TrimUnchanged(t);
    assert forall i :: 0 <= i < |t| ==> IsAstral(t[i]);
    assert Utf16Length(Trim(t)) == 32;
  }

  /** The strings of an array whose entries are all strings. */
  function Strings(entries: seq<TagEntry>): (r: seq<string>)
    requires forall k :: 0 <= k < |entries| ==> entries[k].StrEntry?
    ensures |r| == |entries| && forall k :: 0 <= k < |entries| ==> r[k] == entries[k].s
  {
    if entries == [] then [] else [entries[0].s] + Strings(entries[1..])
  }

  /** `tags.map(t => t.replace(/[&<>"]/g, …))`. */
  function EscapeAll(tags: seq<string>): (r: seq<string>)
    ensures |r| == |tags| && forall k :: 0 <= k < |tags| ==> r[k] == HtmlEscape(tags[k])
  {
    if tags == [] then [] else [HtmlEscape(tags[0])] + EscapeAll(tags[1..])
  }

  /**
   * How a `tags` chain that does not accept the value ends: a 400 carrying the custom
   * validator's message, or an exception. The chain has no `bail()`, so both sanitisers still
   * run after a failed `custom`; on a value that is no array the second one calls `tags.map`
   * and throws a TypeError, which `validate()` does not catch.
   */
  datatype TagsFailure = Rejected(message: string) | SanitizerThrows

  /**
   * The `tags` chain: skipped when missing or `null`; a value that is no array makes the
   * second sanitiser throw; otherwise the custom validator's first error, or the cleaned and
   * escaped list.
   */
  function CheckTags(v: TagsValue): (r: Result<Option<seq<string>>, TagsFailure>)
    ensures v.TagsMissing? <==> r == Success(None)
    ensures v.TagsNotArray? <==> r == Failure(SanitizerThrows)
    ensures v.TagsArray? && |v.entries| > MaxTags ==> r == Failure(Rejected("tags must have at most 20 entries"))
    ensures v.TagsArray? && |v.entries| <= MaxTags ==> (r.Success? <==> EntryError(v.entries).None?)
    ensures v.TagsArray? && |v.entries| <= MaxTags && r.Failure? ==> r.error == Rejected(EntryError(v.entries).value)
    ensures r.Success? && r.value.Some? ==> v.TagsArray? && |v.entries| <= MaxTags
  {
    match v
    case TagsMissing => Success(None)
    case TagsNotArray => Failure(SanitizerThrows)
    case TagsArray(entries) =>
      if |entries| > MaxTags then Failure(Rejected("tags must have at most 20 entries"))
      else match EntryError(entries)
        case Some(msg) => Failure(Rejected(msg))
        case None => Success(Some(EscapeAll(Data.Cleaned(Strings(entries)))))
  }

  /**
   * Accepted tags are the trimmed, non-blank entries in their original order, each
   * escaped: no raw `<`, `>` or `"`, every `&` opening an entity, and nothing lost.
   */
  lemma AcceptedTags(v: TagsValue)
    requires CheckTags(v).Success? && CheckTags(v).value.Some?
    ensures var tags := CheckTags(v).value.value;
      var cleaned := Data.Cleaned(Strings(v.entries));
      && |tags| == |cleaned|
      && (forall k :: 0 <= k < |tags| ==> WellEscaped(tags[k]))
      && (forall k :: 0 <= k < |tags| ==> HtmlUnescape(tags[k]) == cleaned[k])
      && (forall k :: 0 <= k < |cleaned| ==> cleaned[k] != "" && Trim(cleaned[k]) == cleaned[k])
  {
    var cleaned := Data.Cleaned(Strings(v.entries));
    Data.CleanedEntries(Strings(v.entries));
    forall k | 0 <= k < |cleaned|
      ensures WellEscaped(HtmlEscape(cleaned[k])) && HtmlUnescape(HtmlEscape(cleaned[k])) == cleaned[k]
    {
      HtmlEscapeWellEscaped(cleaned[k]);
      HtmlEscapeRoundTrip(cleaned[k]);
    }
  }

  // ---------------------------------------------------------------------------
  // assignee and blockedBy
  // ---------------------------------------------------------------------------

  /** True for the values the membership check accepts. */
  predicate IsUserOrEmpty(t: string) {
    t == "" || t in ValidUsers
  }

  /**
   * The `assignee`/`blockedBy` chain: `null` and `undefined` are skipped; a string is
   * trimmed and lower-cased and must then be `''`, `kenny` or `jimmy`.
   */
  function CheckUserField(field: string, v: JsStr): (r: Result<JsStr, string>)
    ensures !v.Str? ==> r == Success(v)
    ensures v.Str? ==> (r.Success? <==> IsUserOrEmpty(ToLower(Trim(v.s))))
    ensures v.Str? && r.Success? ==> r.value == Str(ToLower(Trim(v.s)))
    ensures r.Failure? ==> r.error == field + " must be one of: kenny, jimmy (or empty)"
  {
    match v
    case Str(s) =>
      var t := ToLower(Trim(s));
      if IsUserOrEmpty(t) then Success(Str(t))
      else Failure(field + " must be one of: kenny, jimmy (or empty)")
    case _ => Success(v)
  }

  /** Accepted values are exactly `''`, `kenny` and `jimmy`, and sanitising one again changes nothing. */
  lemma CheckUserFieldStable(field: string, v: JsStr)
    requires CheckUserField(field, v).Success?
    ensures var w := CheckUserField(field, v).value;
      && (w.Str? ==> w.s == "" || w.s == "kenny" || w.s == "jimmy")
      && CheckUserField(field, w) == Success(w)
  {
    var w := CheckUserField(field, v).value;
    if w.Str? {
      AcceptedUserStable(field, w.s);
    }
  }

  /** An accepted name is accepted again as it is. */
  lemma AcceptedUserStable(field: string, t: string)
    requires IsUserOrEmpty(t)
    ensures t == "" || t == "kenny" || t == "jimmy"
    ensures CheckUserField(field, Str(t)) == Success(Str(t))
  {
    assert t == "" || t == ValidUsers[0] || t == ValidUsers[1];
    assert forall i :: 0 <= i < |t| ==> 'a' <= t[i] <= 'z';
    LowerWordSanitised(t);
  }

  /** A name of lower-case letters passes the sanitiser unchanged. */
  lemma LowerWordSanitised(t: string)
    requires forall i :: 0 <= i < |t| ==> 'a' <= t[i] <= 'z'
    ensures ToLower(Trim(t)) == t
  {
    if t != [] {
      assert 'a' <= t[0] <= 'z' && 'a' <= t[|t| - 1] <= 'z';
    }
    TrimUnchanged(t);
    ToLowerUnchanged(t);
  }
}
