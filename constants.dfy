/** The shared user and column tables of the server (kanban/lib/constants.js). */
module Constants {

  /** One entry of the fixed column list. */
  datatype ColumnDef = ColumnDef(id: string, title: string)

  /** The five columns of every board, in display order. */
  const Columns: seq<ColumnDef> := [
    ColumnDef("backlog", "Backlog"),
    ColumnDef("todo", "Todo"),
    ColumnDef("doing", "Doing"),
    ColumnDef("review", "Review"),
    ColumnDef("done", "Done")
  ]

  /** The ids of Columns, in order. */
  function ColumnIds(): (ids: seq<string>)
    ensures |ids| == |Columns| && forall k :: 0 <= k < |ids| ==> ids[k] == Columns[k].id
  {
    seq(|Columns|, k requires 0 <= k < |Columns| => Columns[k].id)
  }

  /** The column table is exactly backlog, todo, doing, review, done, and no id repeats. */
  lemma ColumnsAreFixed()
    ensures ColumnIds() == ["backlog", "todo", "doing", "review", "done"]
    ensures forall j, k :: 0 <= j < k < |Columns| ==> Columns[j].id != Columns[k].id
  {
  }

  /** The display name the user table gives an id, if it has one. */
  function UserTableName(userId: string): (name: string)
  {
    if userId == "kenny" then "Kenny" else if userId == "jimmy" then "Jimmy" else ""
  }

  /**
   * `getUserName` as written: `USERS[userId]?.name || userId || 'Unknown'`. The lookup
   * `USERS[userId]` also finds the properties every object inherits; of those only
   * `constructor` (the function `Object`) has a name that differs from its key.
   */
  function GetUserNameAsWritten(userId: string): string {
    if UserTableName(userId) != "" then UserTableName(userId)
    else if userId == "constructor" then "Object"
    else if userId != "" then userId
    else "Unknown"
  }

  /** An id that names an inherited property is shown under another name. */
  lemma InheritedNameShowsThrough()
    ensures GetUserNameAsWritten("constructor") == "Object"
  {
  }

  /** `getUserName` with an own-property lookup: the table's name, else the id, else `Unknown`. */
  function GetUserName(userId: string): (name: string)
    ensures userId == "kenny" ==> name == "Kenny"
    ensures userId == "jimmy" ==> name == "Jimmy"
    ensures userId != "kenny" && userId != "jimmy" && userId != "" ==> name == userId
    ensures userId == "" ==> name == "Unknown"
    ensures name != ""
  {
    if UserTableName(userId) != "" then UserTableName(userId)
    else if userId != "" then userId
    else "Unknown"
  }

  /** Apart from the inherited `constructor`, the written lookup and the intended one agree. */
  lemma GetUserNameAgrees(userId: string)
    ensures userId != "constructor" ==> GetUserNameAsWritten(userId) == GetUserName(userId)
    ensures GetUserName("constructor") == "constructor"
  {
  }
}
