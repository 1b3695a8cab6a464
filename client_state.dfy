/**
 * The browser client's shared state (kanban/public/js/state.js) and its undo stack
 * (kanban/public/js/undo.js): the module variables and their setters, the client's user
 * table, `findItemById`, and the bounded stack behind `pushUndo` and `performUndo`.
 */
module ClientState {
  import opened Wrappers
  import opened BoardTypes

  // ---------------------------------------------------------------------------
  // User names
  // ---------------------------------------------------------------------------

  /** The name the client's `USERS` table gives an id as an own property, if any. */
  function ClientTableName(userId: string): string {
    if userId == "dev" then "Dev"
    else if userId == "qa" then "QA"
    else if userId == "kenny" then "Kenny"
    else if userId == "jimmy" then "Jimmy"
    else if userId == "system" then "System"
    else ""
  }

  /**
   * `USERS[userId]?.name || userId || 'Unknown'` as written. The lookup also reaches the
   * properties every object inherits; `constructor` (the function `Object`) is the one whose
   * name differs from its key.
   */
  function ClientUserNameAsWritten(userId: string): string {
    if ClientTableName(userId) != "" then ClientTableName(userId)
    else if userId == "constructor" then "Object"
    else if userId != "" then userId
    else "Unknown"
  }

  lemma ClientInheritedNameShowsThrough()
    ensures ClientUserNameAsWritten("constructor") == "Object"
  {
  }

  /** `getUserName` with an own-property lookup. */
  function ClientUserName(userId: string): (name: string)
    ensures userId == "dev" ==> name == "Dev"
    ensures userId == "qa" ==> name == "QA"
    ensures userId == "kenny" ==> name == "Kenny"
    ensures userId == "jimmy" ==> name == "Jimmy"
    ensures userId == "system" ==> name == "System"
    ensures userId !in {"dev", "qa", "kenny", "jimmy", "system", ""} ==> name == userId
    ensures userId == "" ==> name == "Unknown"
  {
    if ClientTableName(userId) != "" then ClientTableName(userId)
    else if userId != "" then userId
    else "Unknown"
  }

  /** Apart from `constructor`, the written lookup and the own-property one agree. */
  lemma ClientUserNameAgrees(userId: string)
    ensures userId != "constructor" <==> ClientUserNameAsWritten(userId) == ClientUserName(userId)
  {
  }

  // ---------------------------------------------------------------------------
  // Undo
  // ---------------------------------------------------------------------------

  /** The item fields a delete records so that undo can recreate the item. */
  datatype ItemData = ItemData(
    title: JsStr, description: JsStr, priority: JsStr, assignee: JsStr,
    tags: seq<string>, columnId: string, dueDate: JsStr, createdBy: JsStr)

  /** The two kinds of undoable action the client records. */
  datatype UndoAction =
    | MoveAction(itemId: string, fromColumn: string, fromPosition: int)
    | DeleteAction(itemData: ItemData)

  /** The request `performUndo` sends; the board is refreshed after it. */
  datatype Request =
    | MoveBack(itemId: string, toColumnId: string, position: int, movedBy: string)
    | Recreate(itemData: ItemData)

  datatype UndoOutcome = NothingToUndo | Undone(request: Request)

  /** How many undoable actions are kept. */
  const UndoLimit := 10

  /** The stack after `undoStack.push(action)` and the `shift` that keeps the last ten. */
  function Pushed(stack: seq<UndoAction>, action: UndoAction): (r: seq<UndoAction>)
    ensures |stack| <= UndoLimit ==> |r| <= UndoLimit
    ensures |r| > 0 && r[|r| - 1] == action
  {
    var s := stack + [action];
    if |s| > UndoLimit then s[1..] else s
  }

  /** What undoing an action asks the server: a move back to where the item was, or the item recreated. */
  function UndoRequest(action: UndoAction, currentUser: string): (r: Request)
    ensures action.MoveAction? ==> r == MoveBack(action.itemId, action.fromColumn, action.fromPosition, currentUser)
    ensures action.DeleteAction? ==> r == Recreate(action.itemData)
  {
    match action
    case MoveAction(itemId, fromColumn, fromPosition) => MoveBack(itemId, fromColumn, fromPosition, currentUser)
    case DeleteAction(itemData) => Recreate(itemData)
  }

  /** Below the bound a push only appends; on a full stack it drops exactly the oldest entry. */
  lemma PushedShape(stack: seq<UndoAction>, action: UndoAction)
    requires |stack| <= UndoLimit
    ensures |stack| < UndoLimit ==> Pushed(stack, action) == stack + [action]
    ensures |stack| == UndoLimit ==> Pushed(stack, action) == stack[1..] + [action]
  {
    if |stack| == UndoLimit {
      assert (stack + [action])[1..] == stack[1..] + [action];
    }
  }

  /** The first item with the id, as `findItemById` returns it. */
  function FoundItem(columns: seq<Column>, id: string): (r: Option<Item>)
    ensures r.Some? ==> r.value.id == id
  {
    match FindItem(columns, id)
    case Some(p) => Some(columns[p.column].items[p.index])
    case None => None
  }

  /** `findItemById` finds an item exactly when one carries the id, and the first one in board order. */
  lemma FoundItemIsFirst(columns: seq<Column>, id: string)
    ensures FoundItem(columns, id).None? <==> AbsentFrom(columns, id, 0)
    ensures FoundItem(columns, id).Some? ==>
      var q := FindItem(columns, id).value;
      && FoundItem(columns, id).value == columns[q.column].items[q.index]
      && forall p :: At(columns, p, id) ==> q.column < p.column || (q.column == p.column && q.index <= p.index)
  {
    FindItemIsFirst(columns, id);
  }

  /** The module variables of state.js, including the undo stack undo.js works on. */
  class ClientState {
    var boardData: Option<seq<Column>>
    var currentUser: string
    var selectedItem: Option<Item>
    var showArchivedDone: bool
    var undoStack: seq<UndoAction>

    /** The stack never holds more than ten actions. */
    ghost predicate Valid()
      reads this
    {
      |undoStack| <= UndoLimit
    }

    /** The initial values of the module variables. */
    constructor()
      ensures Valid()
      ensures boardData == None && currentUser == "kenny" && selectedItem == None
      ensures !showArchivedDone && undoStack == []
    {
      boardData := None;
      currentUser := "kenny";
      selectedItem := None;
      showArchivedDone := false;
      undoStack := [];
    }

    method SetBoardData(data: Option<seq<Column>>)
      modifies this
      ensures boardData == data
      ensures currentUser == old(currentUser) && selectedItem == old(selectedItem)
      ensures showArchivedDone == old(showArchivedDone) && undoStack == old(undoStack)
    {
      boardData := data;
    }

    method SetCurrentUser(user: string)
      modifies this
      ensures currentUser == user
      ensures boardData == old(boardData) && selectedItem == old(selectedItem)
      ensures showArchivedDone == old(showArchivedDone) && undoStack == old(undoStack)
    {
      currentUser := user;
    }

    method SetSelectedItem(item: Option<Item>)
      modifies this
      ensures selectedItem == item
      ensures boardData == old(boardData) && currentUser == old(currentUser)
      ensures showArchivedDone == old(showArchivedDone) && undoStack == old(undoStack)
    {
      selectedItem := item;
    }

    method SetShowArchivedDone(value: bool)
      modifies this
      ensures showArchivedDone == value
      ensures boardData == old(boardData) && currentUser == old(currentUser)
      ensures selectedItem == old(selectedItem) && undoStack == old(undoStack)
    {
      showArchivedDone := value;
    }

    /** `findItemById(id)`: none without a board, else the first item with the id, column by column. */
    method FindItemById(id: string) returns (r: Option<Item>)
      ensures boardData.None? ==> r == None
      ensures boardData.Some? ==> r == FoundItem(boardData.value, id)
    {
      if boardData.None? {
        return None;
      }
      var columns := boardData.value;
      for c := 0 to |columns|
        invariant FindItem(columns, id) == FindItemFrom(columns, id, c)
      {
        var j := IndexOfId(columns[c].items, id);
        if j.Some? {
          return Some(columns[c].items[j.value]);
        }
      }
      return None;
    }

    /** `pushUndo(action)`: the action goes on top; past ten, the oldest is dropped. */
    method PushUndo(action: UndoAction)
      requires Valid()
      modifies this
      ensures Valid()
      ensures undoStack == Pushed(old(undoStack), action)
      ensures boardData == old(boardData) && currentUser == old(currentUser)
      ensures selectedItem == old(selectedItem) && showArchivedDone == old(showArchivedDone)
    {
      undoStack := undoStack + [action];
      if |undoStack| > UndoLimit {
        undoStack := undoStack[1..];
      }
    }

    /**
     * `performUndo()`: on an empty stack nothing is sent; otherwise the top action is popped
     * and answered by its request, attributed to the current user.
     */
    method PerformUndo() returns (outcome: UndoOutcome)
      requires Valid()
      modifies this
      ensures Valid()
      ensures old(undoStack) == [] ==> outcome == NothingToUndo && undoStack == []
      ensures old(undoStack) != [] ==>
        && undoStack == old(undoStack)[..|old(undoStack)| - 1]
        && outcome == Undone(UndoRequest(old(undoStack)[|old(undoStack)| - 1], currentUser))
      ensures boardData == old(boardData) && currentUser == old(currentUser)
      ensures selectedItem == old(selectedItem) && showArchivedDone == old(showArchivedDone)
    {
      if |undoStack| == 0 {
        return NothingToUndo;
      }
      var action := undoStack[|undoStack| - 1];
      undoStack := undoStack[..|undoStack| - 1];
      return Undone(UndoRequest(action, currentUser));
    }
  }

  /** Undo is last in, first out: undoing right after a push answers the pushed action. */
  lemma UndoAfterPush(stack: seq<UndoAction>, action: UndoAction)
    requires |stack| <= UndoLimit
    ensures var s := Pushed(stack, action);
      s[|s| - 1] == action &&
      s[..|s| - 1] == (if |stack| == UndoLimit then stack[1..] else stack)
  {
    PushedShape(stack, action);
  }
}
