/**
 * The board routes of kanban/routes/board.js: the board document and its handlers for
 * creating, updating, moving and deleting items, commenting, and managing subtasks.
 * Each handler reads the document, mutates it, writes it back (stamping `lastUpdated`),
 * and appends to the event log and the notification list; a handler that throws writes
 * nothing, so on failure every store is left as it was.
 */
module Board {
  import opened Wrappers
  import opened BoardTypes
  import Constants
  import Data
  import Errors
  import Events
  import Notifications
  import opened BoardRules

  // ---------------------------------------------------------------------------
  // Requests
  // ---------------------------------------------------------------------------

  /** The body of `POST /items`. */
  datatype CreateRequest = CreateRequest(
    title: JsStr, description: JsStr, priority: JsStr, columnId: JsStr,
    assignee: JsStr, createdBy: JsStr, tags: Data.TagsInput)

  /** The identity headers a create request may carry. */
  datatype Headers = Headers(xUser: JsStr, xUserId: JsStr, xCreatedBy: JsStr)

  /** The body of `PUT /items/:id`: the scalar keys sent, and `tags` when the key is present. */
  datatype UpdateRequest = UpdateRequest(fields: map<Field, JsStr>, tags: Option<Data.TagsInput>)

  /** The body of `POST /items/:id/move`; `position` is present only when it is a number. */
  datatype MoveRequest = MoveRequest(toColumnId: string, position: Option<int>, movedBy: JsStr)

  /** The response of a move. */
  datatype MoveResult = MoveResult(item: Item, fromColumn: string, toColumn: string)

  /** The body of `PUT /items/:id/subtasks/:subtaskId`; `completed` is present only when it is a boolean. */
  datatype SubtaskUpdate = SubtaskUpdate(completed: Option<bool>, text: JsStr)

  /** `data.columns.find(c => c.id === id)`, as an index. */
  function ColumnIndex(columns: seq<Column>, id: string): (r: Option<nat>)
    ensures r.Some? ==> r.value < |columns| && columns[r.value].id == id
    ensures r.Some? ==> forall k :: 0 <= k < r.value ==> columns[k].id != id
    ensures r.None? ==> forall k :: 0 <= k < |columns| ==> columns[k].id != id
  {
    if columns == [] then None
    else if columns[0].id == id then Some(0)
    else match ColumnIndex(columns[1..], id)
      case None => None
      case Some(k) => Some(k + 1)
  }

  /** The types of a run of events, in order. */
  function TypesOf(drafts: seq<Events.Draft>): (r: seq<Events.EventType>)
    ensures |r| == |drafts| && forall k :: 0 <= k < |drafts| ==> r[k] == drafts[k].eventType
  {
    seq(|drafts|, k requires 0 <= k < |drafts| => drafts[k].eventType)
  }

  lemma TypesOfAppend(a: seq<Events.Draft>, b: seq<Events.Draft>)
    ensures TypesOf(a + b) == TypesOf(a) + TypesOf(b)
  {
  }

  /** Every event of the run names the item by its current title and is attributed to the actor. */
  predicate About(drafts: seq<Events.Draft>, item: Item, actor: string) {
    forall k :: 0 <= k < |drafts| ==>
      && drafts[k].actor == actor && drafts[k].payload.itemId == item.id && drafts[k].payload.title == item.Get(Title)
      && Events.InfoFits(drafts[k].eventType, drafts[k].payload.info)
  }

  lemma AboutAppend(a: seq<Events.Draft>, b: seq<Events.Draft>, item: Item, actor: string)
    requires About(a, item, actor) && About(b, item, actor)
    ensures About(a + b, item, actor)
  {
    forall k | 0 <= k < |a + b|
      ensures (a + b)[k] == if k < |a| then a[k] else b[k - |a|]
    {
    }
  }

  /** The types of a run of notifications, in order. */
  function KindsOf(alerts: seq<Notifications.Alert>): (r: seq<Notifications.NotificationType>)
    ensures |r| == |alerts| && forall k :: 0 <= k < |alerts| ==> r[k] == alerts[k].notificationType
  {
    seq(|alerts|, k requires 0 <= k < |alerts| => alerts[k].notificationType)
  }

  lemma KindsOfAppend(a: seq<Notifications.Alert>, b: seq<Notifications.Alert>)
    ensures KindsOf(a + b) == KindsOf(a) + KindsOf(b)
  {
  }

  // ---------------------------------------------------------------------------
  // Create
  // ---------------------------------------------------------------------------

  /** `columnId || 'todo'`. */
  function TargetColumn(columnId: JsStr): string {
    OrElse(columnId, "todo")
  }

  /** The item a create request builds: ids from the counter, one system comment, one stage entry. */
  function NewItem(req: CreateRequest, creator: string, tags: seq<string>, number: nat, serial: nat, now: int): (it: Item)
    requires tags != [] && creator != ""
    ensures ItemOk(it, number + 1)
    ensures it.id == Data.UniqueId("item", serial) && it.number == number && it.tags == tags
    ensures it.stageHistory == [StageEntry(TargetColumn(req.columnId), now)] && it.subtasks == []
    ensures it.Get(Description).Truthy() <==> req.description.Truthy()
    ensures it.Get(Priority).Truthy() && it.Get(Assignee).Truthy() && it.Get(CreatedBy).Truthy()
    ensures it.Get(BlockedBy) == Undefined && it.Get(DueDate) == Undefined && it.Get(UpdatedBy) == Undefined
    ensures |it.comments| == 1 && it.comments[0].author == "system"
  {
    var fields := map[
      Title := req.title,
      Description := Str(OrElse(req.description, "")),
      Priority := Str(OrElse(req.priority, "medium")),
      Assignee := Str(OrElse(req.assignee, "jimmy")),
      CreatedBy := Str(creator)];
    var created := Comment(Data.UniqueId("comment-created", serial + 1), "Created by " + Constants.GetUserName(creator), "system", now);
    Item(Data.UniqueId("item", serial), number, fields, tags, now, [created], [], [StageEntry(TargetColumn(req.columnId), now)])
  }

  /**
   * The defaults of a create: no column id places the item in todo, a falsy priority becomes
   * medium and a falsy assignee jimmy; the one comment names the creator.
   */
  lemma NewItemDefaults(req: CreateRequest, creator: string, tags: seq<string>, number: nat, serial: nat, now: int)
    requires tags != [] && creator != ""
    ensures var it := NewItem(req, creator, tags, number, serial, now);
      && (!req.columnId.Truthy() ==> it.stageHistory == [StageEntry("todo", now)])
      && (!req.priority.Truthy() ==> it.Get(Priority) == Str("medium"))
      && (req.priority.Truthy() ==> it.Get(Priority) == req.priority)
      && (!req.assignee.Truthy() ==> it.Get(Assignee) == Str("jimmy"))
      && (req.assignee.Truthy() ==> it.Get(Assignee) == req.assignee)
      && it.comments[0].text == "Created by " + Constants.GetUserName(creator)
  {
  }

  /** The ITEM_CREATED event, attributed to the creator. */
  function CreateDraft(it: Item, column: string, creator: string): (d: Events.Draft)
    requires it.Get(Priority).Str? && it.Get(Assignee).Str?
    ensures d.eventType == Events.ITEM_CREATED && Events.InfoFits(d.eventType, d.payload.info)
    ensures d.actor == creator && d.payload.itemId == it.id && d.payload.itemNumber == it.number
    ensures d.payload.info.column == column && d.payload.info.tags == it.tags
  {
    Events.Draft(Events.ITEM_CREATED,
      Events.Payload(it.id, it.number, it.Get(Title),
        Events.Created(column, it.Get(Priority).s, it.Get(Assignee).s, it.tags)),
      creator)
  }

  // ---------------------------------------------------------------------------
  // Update
  // ---------------------------------------------------------------------------

  /** `x-user || updatedBy || 'system'`. */
  function UpdateActor(xUser: JsStr, updates: map<Field, JsStr>): (a: string)
    ensures a != ""
    ensures xUser.Truthy() ==> a == xUser.s
    ensures !xUser.Truthy() && UpdatedBy in updates && updates[UpdatedBy].Truthy() ==> a == updates[UpdatedBy].s
    ensures !xUser.Truthy() && !(UpdatedBy in updates && updates[UpdatedBy].Truthy()) ==> a == "system"
  {
    if xUser.Truthy() then xUser.s
    else OrElse(if UpdatedBy in updates then updates[UpdatedBy] else Undefined, "system")
  }

  /** `'tags' in updates` normalised, or no tags key. */
  function UpdateTags(tags: Option<Data.TagsInput>): (r: Result<Option<seq<string>>, string>)
    ensures tags.None? ==> r == Success(None)
    ensures tags.Some? ==> (r.Failure? <==> Data.NormalizeTags(tags.value).Failure?)
    ensures tags.Some? && r.Success? ==> r.value == Some(Data.NormalizeTags(tags.value).value)
    ensures r.Success? && r.value.Some? ==> r.value.value != []
  {
    if tags.None? then Success(None)
    else match Data.NormalizeTags(tags.value)
      case Failure(e) => Failure(e)
      case Success(t) => Success(Some(t))
  }

  function AssignComments(item: Item, updates: map<Field, JsStr>, serial: nat, now: int): seq<Comment> {
    if ChangesField(item, updates, Assignee) then
      [Comment(Data.UniqueId("comment-assign", serial), AssignText(updates[Assignee]), "system", now)]
    else []
  }

  function BlockComments(item: Item, updates: map<Field, JsStr>, serial: nat, now: int): seq<Comment> {
    if ChangesField(item, updates, BlockedBy) then
      [Comment(Data.UniqueId("comment-block", serial), BlockText(updates[BlockedBy]), "system", now)]
    else []
  }

  /** The system comments an update adds: one per changed assignee, one per changed blocker. */
  function AutoComments(item: Item, updates: map<Field, JsStr>, serial: nat, now: int): (r: seq<Comment>)
    ensures |r| == (if ChangesField(item, updates, Assignee) then 1 else 0) + (if ChangesField(item, updates, BlockedBy) then 1 else 0)
    ensures forall k :: 0 <= k < |r| ==> r[k].author == "system" && r[k].createdAt == now
  {
    var assign := AssignComments(item, updates, serial, now);
    assign + BlockComments(item, updates, serial + |assign|, now)
  }

  function AssignDrafts(item: Item, updates: map<Field, JsStr>, actor: string): seq<Events.Draft> {
    if ChangesField(item, updates, Assignee) then
      [Events.Draft(Events.ITEM_ASSIGNED,
        Events.Payload(item.id, item.number, item.Get(Title), Events.Assigned(item.Get(Assignee), updates[Assignee])), actor)]
    else []
  }

  function BlockDrafts(item: Item, updates: map<Field, JsStr>, actor: string): seq<Events.Draft> {
    if ChangesField(item, updates, BlockedBy) then
      var v := updates[BlockedBy];
      if v.Truthy() then
        [Events.Draft(Events.ITEM_BLOCKED, Events.Payload(item.id, item.number, item.Get(Title), Events.Blocked(v.s)), actor)]
      else
        [Events.Draft(Events.ITEM_UNBLOCKED, Events.Payload(item.id, item.number, item.Get(Title), Events.Unblocked(item.Get(BlockedBy))), actor)]
    else []
  }

  function UpdatedDrafts(item: Item, updates: map<Field, JsStr>, tags: Option<seq<string>>, actor: string): seq<Events.Draft> {
    if HasChanges(item, updates, tags) then
      [Events.Draft(Events.ITEM_UPDATED,
        Events.Payload(item.id, item.number, item.Get(Title), Events.Updated(FieldChanges(item, updates), TagsChangeOf(item, tags))), actor)]
    else []
  }

  /**
   * The events of an update, in order: ITEM_ASSIGNED, then ITEM_BLOCKED or ITEM_UNBLOCKED,
   * then ITEM_UPDATED; all carry the actor and the title from before the update.
   */
  function UpdateDrafts(item: Item, updates: map<Field, JsStr>, tags: Option<seq<string>>, actor: string): seq<Events.Draft> {
    AssignDrafts(item, updates, actor) + BlockDrafts(item, updates, actor) + UpdatedDrafts(item, updates, tags, actor)
  }

  /** Each kind of update event is logged exactly when its field changes as the route checks it. */
  lemma UpdateDraftsTypes(item: Item, updates: map<Field, JsStr>, tags: Option<seq<string>>, actor: string)
    ensures var r := UpdateDrafts(item, updates, tags, actor);
      && (Events.ITEM_UPDATED in TypesOf(r) <==> HasChanges(item, updates, tags))
      && (Events.ITEM_ASSIGNED in TypesOf(r) <==> ChangesField(item, updates, Assignee))
      && (Events.ITEM_BLOCKED in TypesOf(r) <==> ChangesField(item, updates, BlockedBy) && updates[BlockedBy].Truthy())
      && (Events.ITEM_UNBLOCKED in TypesOf(r) <==> ChangesField(item, updates, BlockedBy) && !updates[BlockedBy].Truthy())
  {
    var assign, block, updated := AssignDrafts(item, updates, actor), BlockDrafts(item, updates, actor), UpdatedDrafts(item, updates, tags, actor);
    TypesOfAppend(assign, block);
    TypesOfAppend(assign + block, updated);
    assert TypesOf(assign) == if ChangesField(item, updates, Assignee) then [Events.ITEM_ASSIGNED] else [];
    assert TypesOf(block) == if !ChangesField(item, updates, BlockedBy) then []
      else if updates[BlockedBy].Truthy() then [Events.ITEM_BLOCKED] else [Events.ITEM_UNBLOCKED];
    assert TypesOf(updated) == if HasChanges(item, updates, tags) then [Events.ITEM_UPDATED] else [];
  }

  /** One event per automatic comment, plus ITEM_UPDATED when anything changed; all by the actor, about the item. */
  lemma UpdateDraftsCount(item: Item, updates: map<Field, JsStr>, tags: Option<seq<string>>, actor: string)
    ensures var r := UpdateDrafts(item, updates, tags, actor);
      && |r| == |AutoComments(item, updates, 0, 0)| + (if HasChanges(item, updates, tags) then 1 else 0)
      && About(r, item, actor)
  {
    var assign, block, updated := AssignDrafts(item, updates, actor), BlockDrafts(item, updates, actor), UpdatedDrafts(item, updates, tags, actor);
    AboutAppend(assign, block, item, actor);
    AboutAppend(assign + block, updated, item, actor);
  }

  function AssignAlerts(item: Item, updates: map<Field, JsStr>): seq<Notifications.Alert> {
    if ChangesField(item, updates, Assignee) && updates[Assignee] == Str("kenny") then
      [Notifications.Alert(Notifications.AssignedToKenny, Notifications.ItemAlert(item.id, item.Get(Title)))]
    else []
  }

  function BlockAlerts(item: Item, updates: map<Field, JsStr>): seq<Notifications.Alert> {
    if ChangesField(item, updates, BlockedBy) && updates[BlockedBy] == Str("kenny") then
      [Notifications.Alert(Notifications.BlockedByKenny, Notifications.ItemAlert(item.id, item.Get(Title)))]
    else []
  }

  /** Kenny is notified when an update newly assigns him, and when it newly names him as blocker. */
  function UpdateAlerts(item: Item, updates: map<Field, JsStr>): (r: seq<Notifications.Alert>)
    ensures Notifications.AssignedToKenny in KindsOf(r) <==> ChangesField(item, updates, Assignee) && updates[Assignee] == Str("kenny")
    ensures Notifications.BlockedByKenny in KindsOf(r) <==> ChangesField(item, updates, BlockedBy) && updates[BlockedBy] == Str("kenny")
    ensures forall k :: 0 <= k < |r| ==> r[k].payload == Notifications.ItemAlert(item.id, item.Get(Title))
  {
    var assign, block := AssignAlerts(item, updates), BlockAlerts(item, updates);
    KindsOfAppend(assign, block);
    assert KindsOf(assign) == if |assign| == 1 then [Notifications.AssignedToKenny] else [];
    assert KindsOf(block) == if |block| == 1 then [Notifications.BlockedByKenny] else [];
    assign + block
  }

  // ---------------------------------------------------------------------------
  // Move
  // ---------------------------------------------------------------------------

  /** A move between columns emits ITEM_MOVED; a reorder within a column emits nothing. */
  function MoveDrafts(item: Item, fromColumn: string, toColumn: string, actor: string): (r: seq<Events.Draft>)
    ensures |r| == (if fromColumn != toColumn then 1 else 0)
    ensures forall k :: 0 <= k < |r| ==>
      && r[k].eventType == Events.ITEM_MOVED && r[k].actor == actor && r[k].payload.itemId == item.id
      && r[k].payload.info == Events.Moved(fromColumn, toColumn)
  {
    if fromColumn != toColumn then
      [Events.Draft(Events.ITEM_MOVED, Events.Payload(item.id, item.number, item.Get(Title), Events.Moved(fromColumn, toColumn)), actor)]
    else []
  }

  /**
   * A move into another column notifies Kenny when Jimmy finishes an item, and Jimmy when
   * an item reaches review; a single move raises at most one of them.
   */
  function MoveAlerts(item: Item, toColumn: string, actor: string, crossColumn: bool): (r: seq<Notifications.Alert>)
    ensures Notifications.JimmyCompleted in KindsOf(r) <==> crossColumn && toColumn == "done" && actor == "jimmy"
    ensures Notifications.MovedToReview in KindsOf(r) <==> crossColumn && toColumn == "review"
    ensures |r| <= 1
    ensures forall k :: 0 <= k < |r| && r[k].notificationType == Notifications.MovedToReview ==>
      r[k].payload == Notifications.ReviewAlert(item.id, item.number, item.Get(Title), actor)
  {
    var completed := if crossColumn && toColumn == "done" && actor == "jimmy" then
      [Notifications.Alert(Notifications.JimmyCompleted, Notifications.ItemAlert(item.id, item.Get(Title)))]
    else [];
    var review := if crossColumn && toColumn == "review" then
      [Notifications.Alert(Notifications.MovedToReview, Notifications.ReviewAlert(item.id, item.number, item.Get(Title), actor))]
    else [];
    KindsOfAppend(completed, review);
    assert KindsOf(completed) == if |completed| == 1 then [Notifications.JimmyCompleted] else [];
    assert KindsOf(review) == if |review| == 1 then [Notifications.MovedToReview] else [];
    completed + review
  }

  // ---------------------------------------------------------------------------
  // Comments
  // ---------------------------------------------------------------------------

  function MentionDraft(item: Item, comment: Comment, agent: Agent, actor: string): Events.Draft {
    Events.Draft(Events.AGENT_MENTIONED, Events.Payload(item.id, item.number, item.Get(Title), Events.Mentioned(comment.id, agent.Name())), actor)
  }

  function MentionAlert(item: Item, comment: Comment, agent: Agent, author: JsStr): Notifications.Alert {
    Notifications.Alert(Notifications.MentionAgent,
      Notifications.MentionAlert(item.id, item.number, item.Get(Title), comment.id, comment.text, comment.createdAt, author, agent.Name()))
  }

  /** The COMMENT_ADDED event of a comment, attributed to its author. */
  function AddedDraft(item: Item, comment: Comment): Events.Draft {
    Events.Draft(Events.COMMENT_ADDED, Events.Payload(item.id, item.number, item.Get(Title), Events.CommentAdded(comment.id, comment.text)), comment.author)
  }

  /** COMMENT_ADDED, then one AGENT_MENTIONED per agent, all attributed to the comment's author. */
  function CommentDrafts(item: Item, comment: Comment, agents: seq<Agent>): (r: seq<Events.Draft>)
    ensures |r| == 1 + |agents|
  {
    [AddedDraft(item, comment)] + seq(|agents|, k requires 0 <= k < |agents| => MentionDraft(item, comment, agents[k], comment.author))
  }

  /** COMMENT_ADDED comes first, then one AGENT_MENTIONED per agent in order, all by the comment's author about the item. */
  lemma CommentDraftsShape(item: Item, comment: Comment, agents: seq<Agent>)
    ensures var r := CommentDrafts(item, comment, agents);
      && r[0].eventType == Events.COMMENT_ADDED && r[0].payload.info == Events.CommentAdded(comment.id, comment.text)
      && (forall k :: 0 <= k < |agents| ==> r[k + 1] == MentionDraft(item, comment, agents[k], comment.author))
      && (forall k :: 0 <= k < |r| ==> r[k].actor == comment.author && r[k].payload.itemId == item.id)
  {
  }

  /** One more mentioned agent extends the events by its AGENT_MENTIONED. */
  lemma CommentDraftsStep(item: Item, comment: Comment, agents: seq<Agent>, i: nat)
    requires i < |agents|
    ensures CommentDrafts(item, comment, agents[..i + 1]) == CommentDrafts(item, comment, agents[..i]) + [MentionDraft(item, comment, agents[i], comment.author)]
  {
    var before, after := CommentDrafts(item, comment, agents[..i]), CommentDrafts(item, comment, agents[..i + 1]);
    assert |after| == |before + [MentionDraft(item, comment, agents[i], comment.author)]|;
    forall k | 0 <= k < |after|
      ensures after[k] == (before + [MentionDraft(item, comment, agents[i], comment.author)])[k]
    {
      if 0 < k <= i {
        assert agents[..i + 1][k - 1] == agents[..i][k - 1];
      }
    }
  }

  /** One `mention_agent` notification per agent, in order. */
  function MentionAlerts(item: Item, comment: Comment, agents: seq<Agent>, author: JsStr): (r: seq<Notifications.Alert>)
    ensures |r| == |agents|
  {
    seq(|agents|, k requires 0 <= k < |agents| => MentionAlert(item, comment, agents[k], author))
  }

  /** One more mentioned agent extends the notifications by its `mention_agent`. */
  lemma MentionAlertsStep(item: Item, comment: Comment, agents: seq<Agent>, author: JsStr, i: nat)
    requires i < |agents|
    ensures MentionAlerts(item, comment, agents[..i + 1], author) == MentionAlerts(item, comment, agents[..i], author) + [MentionAlert(item, comment, agents[i], author)]
  {
    var before, after := MentionAlerts(item, comment, agents[..i], author), MentionAlerts(item, comment, agents[..i + 1], author);
    forall k | 0 <= k < |after|
      ensures after[k] == (before + [MentionAlert(item, comment, agents[i], author)])[k]
    {
      if k < i {
        assert agents[..i + 1][k] == agents[..i][k];
      }
    }
  }

  /** One mention notification per agent; when none was mentioned, `kenny_comment` if Kenny wrote it. */
  function CommentAlerts(item: Item, comment: Comment, agents: seq<Agent>, author: JsStr): (r: seq<Notifications.Alert>)
    ensures Notifications.KennyComment in KindsOf(r) <==> RaisesKennyComment(agents, author)
    ensures agents != [] ==> |r| == |agents| && forall k :: 0 <= k < |agents| ==> r[k] == MentionAlert(item, comment, agents[k], author)
    ensures agents == [] ==> |r| == (if author == Str("kenny") then 1 else 0)
  {
    if agents != [] then
      var r := MentionAlerts(item, comment, agents, author);
      assert forall k :: 0 <= k < |r| ==> KindsOf(r)[k] == Notifications.MentionAgent;
      r
    else if RaisesKennyComment(agents, author) then
      var r := [Notifications.Alert(Notifications.KennyComment,
        Notifications.CommentAlert(item.id, item.Get(Title), comment.id, comment.text, comment.createdAt))];
      assert KindsOf(r) == [Notifications.KennyComment];
      r
    else []
  }

  /** True when the text mentions the agent through one of its aliases. */
  ghost predicate Addresses(text: string, agent: Agent) {
    exists p :: 0 <= p < |text| && MentionAt(Aliases, text, p, agent)
  }

  /** Different agents get different mention notifications: the notification names its agent. */
  lemma MentionAlertInjective(item: Item, comment: Comment, author: JsStr, a: Agent, b: Agent)
    ensures MentionAlert(item, comment, a, author) == MentionAlert(item, comment, b, author) <==> a == b
  {
    if MentionAlert(item, comment, a, author) == MentionAlert(item, comment, b, author) {
      assert a.Name() == b.Name();
    }
  }

  /** A comment notifies an agent exactly when its text mentions one of the agent's aliases. */
  lemma MentionAlertsOncePerAgent(item: Item, comment: Comment, author: JsStr, agent: Agent)
    ensures var r := CommentAlerts(item, comment, MentionedAgents(comment.text), author);
      (exists k :: 0 <= k < |r| && r[k] == MentionAlert(item, comment, agent, author)) <==> Addresses(comment.text, agent)
  {
    var agents := MentionedAgents(comment.text);
    var r := CommentAlerts(item, comment, agents, author);
    AliasesAreLetters();
    MentionedFromIff(Aliases, comment.text, 0, agent);
    assert agent in Mentions(comment.text) <==> agent in agents;
    if exists k :: 0 <= k < |r| && r[k] == MentionAlert(item, comment, agent, author) {
      var k :| 0 <= k < |r| && r[k] == MentionAlert(item, comment, agent, author);
      assert agents != [];
      MentionAlertInjective(item, comment, author, agents[k], agent);
    }
    if agent in agents {
      var k :| 0 <= k < |agents| && agents[k] == agent;
      assert r[k] == MentionAlert(item, comment, agent, author);
    }
  }

  /** No agent is notified twice about one comment. */
  lemma MentionAlertsDistinct(item: Item, comment: Comment, author: JsStr)
    ensures var r := CommentAlerts(item, comment, MentionedAgents(comment.text), author);
      forall j, k :: 0 <= j < k < |r| && r[j].notificationType == Notifications.MentionAgent ==> r[j] != r[k]
  {
    var agents := MentionedAgents(comment.text);
    var r := CommentAlerts(item, comment, agents, author);
    forall j, k | 0 <= j < k < |r| && r[j].notificationType == Notifications.MentionAgent
      ensures r[j] != r[k]
    {
      assert agents != [];
      MentionAlertInjective(item, comment, author, agents[j], agents[k]);
    }
  }

  /** `author || 'unknown'`. */
  function CommentAuthor(author: JsStr): (a: string)
    ensures a != "" && (author.Truthy() ==> a == author.s)
  {
    OrElse(author, "unknown")
  }

  // ---------------------------------------------------------------------------
  // Subtasks
  // ---------------------------------------------------------------------------

  /** SUBTASK_UPDATED is emitted only when something changed; the payload carries no title. */
  function SubtaskDrafts(item: Item, st: Subtask, completedChange: Option<(bool, bool)>, textChange: Option<Events.FieldChange>, actor: string): (r: seq<Events.Draft>)
    ensures |r| == (if completedChange.Some? || textChange.Some? then 1 else 0)
    ensures forall k :: 0 <= k < |r| ==>
      r[k].payload == Events.Payload(item.id, item.number, Undefined, Events.SubtaskUpdated(st.id, completedChange, textChange))
  {
    if completedChange.Some? || textChange.Some? then
      [Events.Draft(Events.SUBTASK_UPDATED, Events.Payload(item.id, item.number, Undefined, Events.SubtaskUpdated(st.id, completedChange, textChange)), actor)]
    else []
  }

  // ---------------------------------------------------------------------------
  // The board document
  // ---------------------------------------------------------------------------

  /**
   * The board document together with the event log and the notification list it feeds.
   * `nextTicketNumber` is 0 while the document has no counter; `serial` stands for the
   * randomness of `uniqueId` as a counter, so that fresh ids are provably fresh.
   */
  class Engine {
    var columns: seq<Column>
    var nextTicketNumber: nat
    var lastUpdated: int
    var serial: nat
    const log: Events.EventLog
    const inbox: Notifications.NotificationStore

    ghost predicate Valid()
      reads this
    {
      BoardOk(columns, serial, TicketNumber(nextTicketNumber))
    }

    /** `initDataFile()`: the fixed columns, all empty. */
    constructor(log: Events.EventLog, inbox: Notifications.NotificationStore, now: int)
      ensures Valid() && this.log == log && this.inbox == inbox
      ensures columns == InitialColumns() && ItemCount(columns) == 0
      ensures nextTicketNumber == 0 && lastUpdated == now
    {
      columns := InitialColumns();
      nextTicketNumber := 0;
      lastUpdated := now;
      serial := 0;
      this.log := log;
      this.inbox := inbox;
    }

    /** The handlers' search loop: the first column holding the id, and the item's index in it. */
    method Locate(id: string) returns (p: Option<Position>)
      ensures p == FindItem(columns, id)
    {
      var c := 0;
      while c < |columns|
        invariant c <= |columns|
        invariant FindItem(columns, id) == FindItemFrom(columns, id, c)
      {
        var j := IndexOfId(columns[c].items, id);
        if j.Some? {
          return Some(Position(c, j.value));
        }
        c := c + 1;
      }
      return None;
    }

    /** `writeData(data)`: stores the new document and stamps `lastUpdated`. */
    method Write(newColumns: seq<Column>, newSerial: nat, newTicket: nat, now: int)
      requires BoardOk(newColumns, newSerial, TicketNumber(newTicket))
      modifies this
      ensures Valid()
      ensures columns == newColumns && serial == newSerial && nextTicketNumber == newTicket && lastUpdated == now
    {
      columns := newColumns;
      serial := newSerial;
      nextTicketNumber := newTicket;
      lastUpdated := now;
    }

    /**
     * `column.items.push(newItem)` with the ticket counter advanced past the new number;
     * the item and its creation comment each took one id from the counter.
     */
    method Append(c: nat, item: Item, now: int)
      requires Valid() && c < |columns|
      requires item.id == Data.UniqueId("item", serial) && item.number == TicketNumber(nextTicketNumber) && ItemOk(item, item.number + 1)
      modifies this
      ensures Valid()
      ensures columns == WithItems(old(columns), c, old(columns)[c].items + [item])
      ensures serial == old(serial) + 2 && nextTicketNumber == item.number + 1 && lastUpdated == now
      ensures ItemCount(columns) == ItemCount(old(columns)) + 1 && Occurrences(columns, item.id) == 1
    {
      AppendKeepsBoardOk(columns, serial, item.number, c, item, serial + 2, item.number + 1);
      Write(WithItems(columns, c, columns[c].items + [item]), serial + 2, item.number + 1, now);
    }

    /** One `addEvent` call of a handler's run. */
    method Emit(d: Events.Draft, now: int, ghost before: seq<Events.Event>, ghost from: nat, ghost drafts: seq<Events.Draft>)
      requires log.Events() == Events.LogAfter(before, from, drafts, now) && log.serial == from + |drafts|
      modifies log
      ensures log.Events() == Events.LogAfter(before, from, drafts + [d], now)
      ensures log.serial == from + |drafts| + 1
    {
      Events.LogAfterStep(before, from, drafts, d, now);
      var _ := log.AddEvent(d.eventType, d.payload, Some(d.actor), now);
    }

    /** One `addNotification` call of a handler's run. */
    method Notify(a: Notifications.Alert, now: int, ghost before: seq<Notifications.Notification>, ghost from: nat, ghost alerts: seq<Notifications.Alert>)
      requires inbox.Notifications() == before + Notifications.Stamped(alerts, from, now) && inbox.serial == from + |alerts|
      modifies inbox
      ensures inbox.Notifications() == before + Notifications.Stamped(alerts + [a], from, now)
      ensures inbox.serial == from + |alerts| + 1
    {
      Notifications.StampedStep(alerts, a, from, now);
      inbox.AddNotification(a.notificationType, a.payload, now);
      assert before + Notifications.Stamped(alerts, from, now) + [Notifications.Notification(Data.UniqueId("notif", from + |alerts|), a.notificationType, a.payload, now)]
          == before + (Notifications.Stamped(alerts, from, now) + [Notifications.Notification(Data.UniqueId("notif", from + |alerts|), a.notificationType, a.payload, now)]);
    }

    /**
     * `POST /items`: rejects bad tags, then an unknown column; otherwise appends the new
     * item under a ticket number above every number on the board, and logs ITEM_CREATED.
     */
    method CreateItem(req: CreateRequest, headers: Headers, now: int) returns (r: Result<Item, Errors.AppError>)
      requires Valid()
      modifies this, log
      ensures Valid()
      ensures Data.NormalizeTags(req.tags).Failure? ==> r == Failure(Errors.BadRequest(Data.NormalizeTags(req.tags).error, None))
      ensures Data.NormalizeTags(req.tags).Success? && ColumnIndex(old(columns), TargetColumn(req.columnId)).None? ==>
        r == Failure(Errors.BadRequest("Invalid column", None))
      ensures r.Failure? ==> unchanged(this) && unchanged(log)
      ensures r.Success? ==> Data.NormalizeTags(req.tags).Success? && ColumnIndex(old(columns), TargetColumn(req.columnId)).Some?
      ensures r.Success? ==>
        var c := ColumnIndex(old(columns), TargetColumn(req.columnId)).value;
        var creator := ResolveCreatedBy(req.createdBy, headers.xUser, headers.xUserId, headers.xCreatedBy);
        && r.value == NewItem(req, creator, Data.NormalizeTags(req.tags).value, TicketNumber(old(nextTicketNumber)), old(serial), now)
        && columns == WithItems(old(columns), c, old(columns)[c].items + [r.value])
        && nextTicketNumber == r.value.number + 1 && serial == old(serial) + 2 && lastUpdated == now
        && ItemCount(columns) == ItemCount(old(columns)) + 1 && Occurrences(columns, r.value.id) == 1
        && log.Events() == Events.LogAfter(old(log.Events()), old(log.serial), [CreateDraft(r.value, TargetColumn(req.columnId), creator)], now)
        && log.serial == old(log.serial) + 1
      ensures r.Success? ==> forall k, j :: 0 <= k < |old(columns)| && 0 <= j < |old(columns)[k].items| ==>
        old(columns)[k].items[j].number < r.value.number
    {
      var tags := Data.NormalizeTags(req.tags);
      if tags.Failure? {
        return Failure(Errors.BadRequest(tags.error, None));
      }
      var number := TicketNumber(nextTicketNumber);
      var creator := ResolveCreatedBy(req.createdBy, headers.xUser, headers.xUserId, headers.xCreatedBy);
      var item := NewItem(req, creator, tags.value, number, serial, now);
      var target := TargetColumn(req.columnId);
      var c := ColumnIndex(columns, target);
      if c.None? {
        return Failure(Errors.BadRequest("Invalid column", None));
      }
      NumbersBelowTicket(columns, serial, number);
      Admit(c.value, item, target, creator, now);
      return Success(item);
    }

    /** The successful end of `POST /items`: log ITEM_CREATED, then store the item at the end of column c. */
    method Admit(c: nat, item: Item, target: string, creator: string, now: int)
      requires Valid() && c < |columns|
      requires item.id == Data.UniqueId("item", serial) && item.number == TicketNumber(nextTicketNumber) && ItemOk(item, item.number + 1)
      requires item.Get(Priority).Str? && item.Get(Assignee).Str?
      modifies this, log
      ensures Valid()
      ensures columns == WithItems(old(columns), c, old(columns)[c].items + [item])
      ensures serial == old(serial) + 2 && nextTicketNumber == item.number + 1 && lastUpdated == now
      ensures ItemCount(columns) == ItemCount(old(columns)) + 1 && Occurrences(columns, item.id) == 1
      ensures log.Events() == Events.LogAfter(old(log.Events()), old(log.serial), [CreateDraft(item, target, creator)], now)
      ensures log.serial == old(log.serial) + 1
    {
      Emit(CreateDraft(item, target, creator), now, log.Events(), log.serial, []);
      Append(c, item, now);
    }

    /**
     * The assignment part of `PUT /items/:id`: a changed assignee logs ITEM_ASSIGNED, and
     * notifies Kenny when the new assignee is he. The ghost parameters describe the run so far.
     */
    method AnnounceAssign(item: Item, updates: map<Field, JsStr>, actor: string, now: int,
                          ghost events0: seq<Events.Event>, ghost eserial0: nat, ghost drafts: seq<Events.Draft>,
                          ghost notes0: seq<Notifications.Notification>, ghost nserial0: nat, ghost alerts: seq<Notifications.Alert>)
      requires log.Events() == Events.LogAfter(events0, eserial0, drafts, now) && log.serial == eserial0 + |drafts|
      requires inbox.Notifications() == notes0 + Notifications.Stamped(alerts, nserial0, now) && inbox.serial == nserial0 + |alerts|
      modifies log, inbox
      ensures log.Events() == Events.LogAfter(events0, eserial0, drafts + AssignDrafts(item, updates, actor), now)
      ensures log.serial == eserial0 + |drafts + AssignDrafts(item, updates, actor)|
      ensures inbox.Notifications() == notes0 + Notifications.Stamped(alerts + AssignAlerts(item, updates), nserial0, now)
      ensures inbox.serial == nserial0 + |alerts + AssignAlerts(item, updates)|
    {
      if ChangesField(item, updates, Assignee) {
        var newAssignee := updates[Assignee];
        var d := Events.Draft(Events.ITEM_ASSIGNED, Events.Payload(item.id, item.number, item.Get(Title), Events.Assigned(item.Get(Assignee), newAssignee)), actor);
        Emit(d, now, events0, eserial0, drafts);
        if newAssignee == Str("kenny") {
          var a := Notifications.Alert(Notifications.AssignedToKenny, Notifications.ItemAlert(item.id, item.Get(Title)));
          Notify(a, now, notes0, nserial0, alerts);
        } else {
          assert alerts + AssignAlerts(item, updates) == alerts;
        }
      } else {
        assert drafts + AssignDrafts(item, updates, actor) == drafts;
        assert alerts + AssignAlerts(item, updates) == alerts;
      }
    }

    /**
     * The blocker part of `PUT /items/:id`: a changed blocker logs ITEM_BLOCKED when the new
     * value is truthy and ITEM_UNBLOCKED otherwise, and notifies Kenny when he is the new blocker.
     */
    method AnnounceBlock(item: Item, updates: map<Field, JsStr>, actor: string, now: int,
                         ghost events0: seq<Events.Event>, ghost eserial0: nat, ghost drafts: seq<Events.Draft>,
                         ghost notes0: seq<Notifications.Notification>, ghost nserial0: nat, ghost alerts: seq<Notifications.Alert>)
      requires log.Events() == Events.LogAfter(events0, eserial0, drafts, now) && log.serial == eserial0 + |drafts|
      requires inbox.Notifications() == notes0 + Notifications.Stamped(alerts, nserial0, now) && inbox.serial == nserial0 + |alerts|
      modifies log, inbox
      ensures log.Events() == Events.LogAfter(events0, eserial0, drafts + BlockDrafts(item, updates, actor), now)
      ensures log.serial == eserial0 + |drafts + BlockDrafts(item, updates, actor)|
      ensures inbox.Notifications() == notes0 + Notifications.Stamped(alerts + BlockAlerts(item, updates), nserial0, now)
      ensures inbox.serial == nserial0 + |alerts + BlockAlerts(item, updates)|
    {
      if ChangesField(item, updates, BlockedBy) {
        var newBlocked := updates[BlockedBy];
        var d := if newBlocked.Truthy()
          then Events.Draft(Events.ITEM_BLOCKED, Events.Payload(item.id, item.number, item.Get(Title), Events.Blocked(newBlocked.s)), actor)
          else Events.Draft(Events.ITEM_UNBLOCKED, Events.Payload(item.id, item.number, item.Get(Title), Events.Unblocked(item.Get(BlockedBy))), actor);
        Emit(d, now, events0, eserial0, drafts);
        if newBlocked == Str("kenny") {
          var a := Notifications.Alert(Notifications.BlockedByKenny, Notifications.ItemAlert(item.id, item.Get(Title)));
          Notify(a, now, notes0, nserial0, alerts);
        } else {
          assert alerts + BlockAlerts(item, updates) == alerts;
        }
      } else {
        assert drafts + BlockDrafts(item, updates, actor) == drafts;
        assert alerts + BlockAlerts(item, updates) == alerts;
      }
    }

    /**
     * The `addEvent` and `addNotification` calls of `PUT /items/:id`, in the handler's
     * order: the assignment change, the blocker change, then ITEM_UPDATED.
     */
    method AnnounceUpdate(item: Item, updates: map<Field, JsStr>, tags: Option<seq<string>>, actor: string, now: int)
      modifies log, inbox
      ensures log.Events() == Events.LogAfter(old(log.Events()), old(log.serial), UpdateDrafts(item, updates, tags, actor), now)
      ensures log.serial == old(log.serial) + |UpdateDrafts(item, updates, tags, actor)|
      ensures inbox.Notifications() == old(inbox.Notifications()) + Notifications.Stamped(UpdateAlerts(item, updates), old(inbox.serial), now)
      ensures inbox.serial == old(inbox.serial) + |UpdateAlerts(item, updates)|
    {
      ghost var events0, eserial0 := log.Events(), log.serial;
      ghost var notes0, nserial0 := inbox.Notifications(), inbox.serial;
      ghost var assign, assignAlerts := AssignDrafts(item, updates, actor), AssignAlerts(item, updates);
      AnnounceAssign(item, updates, actor, now, events0, eserial0, [], notes0, nserial0, []);
      assert [] + assign == assign && [] + assignAlerts == assignAlerts;
      AnnounceBlock(item, updates, actor, now, events0, eserial0, assign, notes0, nserial0, assignAlerts);
      ghost var drafts := assign + BlockDrafts(item, updates, actor);
      if HasChanges(item, updates, tags) {
        var d := Events.Draft(Events.ITEM_UPDATED,
          Events.Payload(item.id, item.number, item.Get(Title), Events.Updated(FieldChanges(item, updates), TagsChangeOf(item, tags))), actor);
        Emit(d, now, events0, eserial0, drafts);
        assert drafts + [d] == UpdateDrafts(item, updates, tags, actor);
      } else {
        assert drafts == UpdateDrafts(item, updates, tags, actor);
      }
      assert assignAlerts + BlockAlerts(item, updates) == UpdateAlerts(item, updates);
    }

    /**
     * `PUT /items/:id`: rejects bad tags, then an unknown id; otherwise logs the assignment
     * and blocker changes with their system comments, merges the update over the item in
     * place, and logs ITEM_UPDATED when some key changed.
     */
    method UpdateItem(id: string, req: UpdateRequest, xUser: JsStr, now: int) returns (r: Result<Item, Errors.AppError>)
      requires Valid()
      modifies this, log, inbox
      ensures Valid()
      ensures UpdateTags(req.tags).Failure? ==> r == Failure(Errors.BadRequest(UpdateTags(req.tags).error, None))
      ensures UpdateTags(req.tags).Success? && FindItem(old(columns), id).None? ==> r == Failure(Errors.NotFound(Some("Item")))
      ensures r.Failure? ==> unchanged(this) && unchanged(log) && unchanged(inbox)
      ensures r.Success? ==> UpdateTags(req.tags).Success? && FindItem(old(columns), id).Some?
      ensures r.Success? ==>
        var p := FindItem(old(columns), id).value;
        var item := old(columns)[p.column].items[p.index];
        var tags := UpdateTags(req.tags).value;
        && r.value == Merge(item, req.fields, tags, AutoComments(item, req.fields, old(serial), now))
        && columns == WithItems(old(columns), p.column, old(columns)[p.column].items[p.index := r.value])
        && serial == old(serial) + |AutoComments(item, req.fields, old(serial), now)|
        && nextTicketNumber == old(nextTicketNumber) && lastUpdated == now
        && log.Events() == Events.LogAfter(old(log.Events()), old(log.serial), UpdateDrafts(item, req.fields, tags, UpdateActor(xUser, req.fields)), now)
        && log.serial == old(log.serial) + |UpdateDrafts(item, req.fields, tags, UpdateActor(xUser, req.fields))|
        && inbox.Notifications() == old(inbox.Notifications()) + Notifications.Stamped(UpdateAlerts(item, req.fields), old(inbox.serial), now)
        && inbox.serial == old(inbox.serial) + |UpdateAlerts(item, req.fields)|
      ensures r.Success? ==> r.value.id == id && ItemCount(columns) == ItemCount(old(columns))
      ensures r.Success? ==> forall x :: Occurrences(columns, x) == Occurrences(old(columns), x)
    {
      var tags := UpdateTags(req.tags);
      if tags.Failure? {
        return Failure(Errors.BadRequest(tags.error, None));
      }
      var p := Locate(id);
      if p.None? {
        return Failure(Errors.NotFound(Some("Item")));
      }
      var pos := p.value;
      var item := columns[pos.column].items[pos.index];
      var updates := req.fields;
      var autoComments := AutoComments(item, updates, serial, now);
      AnnounceUpdate(item, updates, tags.value, UpdateActor(xUser, updates), now);
      var merged := Merge(item, updates, tags.value, autoComments);
      ReplaceKeepsBoardOk(columns, serial, TicketNumber(nextTicketNumber), pos, merged, serial + |autoComments|);
      Write(WithItems(columns, pos.column, columns[pos.column].items[pos.index := merged]), serial + |autoComments|, nextTicketNumber, now);
      return Success(merged);
    }

    /**
     * The `addEvent` and `addNotification` calls of `POST /items/:id/move`: a move to another
     * column logs ITEM_MOVED, notifies Jimmy's completions and every arrival in review.
     */
    method AnnounceMove(item: Item, fromColumn: string, toColumn: string, actor: string, now: int)
      modifies log, inbox
      ensures log.Events() == Events.LogAfter(old(log.Events()), old(log.serial), MoveDrafts(item, fromColumn, toColumn, actor), now)
      ensures log.serial == old(log.serial) + |MoveDrafts(item, fromColumn, toColumn, actor)|
      ensures inbox.Notifications() == old(inbox.Notifications()) + Notifications.Stamped(MoveAlerts(item, toColumn, actor, fromColumn != toColumn), old(inbox.serial), now)
      ensures inbox.serial == old(inbox.serial) + |MoveAlerts(item, toColumn, actor, fromColumn != toColumn)|
    {
      ghost var notes0, nserial0 := inbox.Notifications(), inbox.serial;
      ghost var alerts: seq<Notifications.Alert> := [];
      if fromColumn != toColumn {
        Emit(Events.Draft(Events.ITEM_MOVED, Events.Payload(item.id, item.number, item.Get(Title), Events.Moved(fromColumn, toColumn)), actor),
          now, log.Events(), log.serial, []);
        if toColumn == "done" && actor == "jimmy" {
          var a := Notifications.Alert(Notifications.JimmyCompleted, Notifications.ItemAlert(item.id, item.Get(Title)));
          Notify(a, now, notes0, nserial0, alerts);
          alerts := alerts + [a];
        }
        if toColumn == "review" {
          var a := Notifications.Alert(Notifications.MovedToReview, Notifications.ReviewAlert(item.id, item.number, item.Get(Title), actor));
          Notify(a, now, notes0, nserial0, alerts);
          alerts := alerts + [a];
        }
      }
      assert alerts == MoveAlerts(item, toColumn, actor, fromColumn != toColumn);
    }

    /**
     * `POST /items/:id/move`: an unknown id or target column fails with nothing written;
     * otherwise the item is spliced out and back in at the clamped index, and a move to
     * another column appends a stage entry and a system comment and logs ITEM_MOVED.
     */
    method MoveItem(id: string, req: MoveRequest, now: int) returns (r: Result<MoveResult, Errors.AppError>)
      requires Valid()
      modifies this, log, inbox
      ensures Valid()
      ensures FindItem(old(columns), id).None? ==> r == Failure(Errors.NotFound(Some("Item")))
      ensures FindItem(old(columns), id).Some? && ColumnIndex(old(columns), req.toColumnId).None? ==>
        r == Failure(Errors.BadRequest("Invalid target column", None))
      ensures r.Failure? ==> unchanged(this) && unchanged(log) && unchanged(inbox)
      ensures r.Success? ==> FindItem(old(columns), id).Some? && ColumnIndex(old(columns), req.toColumnId).Some?
      ensures r.Success? ==>
        var p := FindItem(old(columns), id).value;
        var item := old(columns)[p.column].items[p.index];
        var t := ColumnIndex(old(columns), req.toColumnId).value;
        var from := old(columns)[p.column].id;
        var cross := from != req.toColumnId;
        var actor := MoveActor(req.movedBy, item.Get(Assignee));
        var comment := Comment(Data.UniqueId("comment-move", old(serial)), MoveText(req.toColumnId, actor), "system", now);
        var moved := MovedItem(item, cross, req.toColumnId, comment, now);
        var mid := WithItems(old(columns), p.column, RemoveAt(old(columns)[p.column].items, p.index));
        var k := SpliceStart(|mid[t].items|, RequestedIndex(req.position, req.toColumnId, |mid[t].items|));
        && r.value == MoveResult(moved, from, req.toColumnId)
        && columns == WithItems(mid, t, InsertAt(mid[t].items, k, moved))
        && columns[t].items[k] == moved
        && serial == old(serial) + (if cross then 1 else 0)
        && nextTicketNumber == old(nextTicketNumber) && lastUpdated == now
        && log.Events() == Events.LogAfter(old(log.Events()), old(log.serial), MoveDrafts(item, from, req.toColumnId, actor), now)
        && log.serial == old(log.serial) + (if cross then 1 else 0)
        && inbox.Notifications() == old(inbox.Notifications()) + Notifications.Stamped(MoveAlerts(item, req.toColumnId, actor, cross), old(inbox.serial), now)
        && inbox.serial == old(inbox.serial) + |MoveAlerts(item, req.toColumnId, actor, cross)|
      ensures r.Success? ==> ItemCount(columns) == ItemCount(old(columns)) && Occurrences(columns, id) == 1
      ensures r.Success? ==> forall x :: Occurrences(columns, x) == Occurrences(old(columns), x)
    {
      var p := Locate(id);
      if p.None? {
        return Failure(Errors.NotFound(Some("Item")));
      }
      var pos := p.value;
      var item := columns[pos.column].items[pos.index];
      var fromColumn := columns[pos.column].id;
      var t := ColumnIndex(columns, req.toColumnId);
      if t.None? {
        return Failure(Errors.BadRequest("Invalid target column", None));
      }
      var mid := WithItems(columns, pos.column, RemoveAt(columns[pos.column].items, pos.index));
      var actor := MoveActor(req.movedBy, item.Get(Assignee));
      var cross := fromColumn != req.toColumnId;
      var comment := Comment(Data.UniqueId("comment-move", serial), MoveText(req.toColumnId, actor), "system", now);
      var moved := MovedItem(item, cross, req.toColumnId, comment, now);
      var newSerial := if cross then serial + 1 else serial;
      AnnounceMove(item, fromColumn, req.toColumnId, actor, now);
      var len := |mid[t.value].items|;
      var k := SpliceStart(len, RequestedIndex(req.position, req.toColumnId, len));
      MoveKeepsBoardOk(columns, serial, TicketNumber(nextTicketNumber), pos, t.value, k, moved, newSerial);
      Write(WithItems(mid, t.value, InsertAt(mid[t.value].items, k, moved)), newSerial, nextTicketNumber, now);
      return Success(MoveResult(moved, fromColumn, req.toColumnId));
    }

    /** `DELETE /items/:id`: splices the item out and logs ITEM_DELETED with its column, or fails with NotFound. */
    method DeleteItem(id: string, xUser: JsStr, now: int) returns (r: Result<Item, Errors.AppError>)
      requires Valid()
      modifies this, log
      ensures Valid()
      ensures FindItem(old(columns), id).None? <==> r == Failure(Errors.NotFound(Some("Item")))
      ensures r.Failure? ==> unchanged(this) && unchanged(log)
      ensures r.Success? ==> FindItem(old(columns), id).Some?
      ensures r.Success? ==>
        var p := FindItem(old(columns), id).value;
        var item := old(columns)[p.column].items[p.index];
        && r.value == item
        && columns == WithItems(old(columns), p.column, RemoveAt(old(columns)[p.column].items, p.index))
        && serial == old(serial) && nextTicketNumber == old(nextTicketNumber) && lastUpdated == now
        && log.Events() == Events.LogAfter(old(log.Events()), old(log.serial),
             [Events.Draft(Events.ITEM_DELETED, Events.Payload(item.id, item.number, item.Get(Title), Events.Deleted(old(columns)[p.column].id)), OrElse(xUser, "system"))], now)
        && log.serial == old(log.serial) + 1
      ensures r.Success? ==> ItemCount(columns) + 1 == ItemCount(old(columns)) && Occurrences(columns, id) == 0
      ensures r.Success? ==> forall x :: x != id ==> Occurrences(columns, x) == Occurrences(old(columns), x)
    {
      var p := Locate(id);
      if p.None? {
        return Failure(Errors.NotFound(Some("Item")));
      }
      var pos := p.value;
      var item := columns[pos.column].items[pos.index];
      var fromColumn := columns[pos.column].id;
      Emit(Events.Draft(Events.ITEM_DELETED, Events.Payload(item.id, item.number, item.Get(Title), Events.Deleted(fromColumn)), OrElse(xUser, "system")),
        now, log.Events(), log.serial, []);
      RemoveKeepsBoardOk(columns, serial, TicketNumber(nextTicketNumber), pos);
      Write(WithItems(columns, pos.column, RemoveAt(columns[pos.column].items, pos.index)), serial, nextTicketNumber, now);
      return Success(item);
    }

    /**
     * The loop over the mentioned agents of `POST /items/:id/comments`: after COMMENT_ADDED,
     * one AGENT_MENTIONED event and one `mention_agent` notification per agent, in order.
     */
    method AnnounceMentions(item: Item, comment: Comment, agents: seq<Agent>, author: JsStr, now: int,
                            ghost events0: seq<Events.Event>, ghost eserial0: nat,
                            ghost notes0: seq<Notifications.Notification>, ghost nserial0: nat)
      requires log.Events() == Events.LogAfter(events0, eserial0, CommentDrafts(item, comment, []), now) && log.serial == eserial0 + 1
      requires inbox.Notifications() == notes0 && inbox.serial == nserial0
      modifies log, inbox
      ensures log.Events() == Events.LogAfter(events0, eserial0, CommentDrafts(item, comment, agents), now)
      ensures log.serial == eserial0 + 1 + |agents|
      ensures inbox.Notifications() == notes0 + Notifications.Stamped(MentionAlerts(item, comment, agents, author), nserial0, now)
      ensures inbox.serial == nserial0 + |agents|
    {
      for i := 0 to |agents|
        invariant log.Events() == Events.LogAfter(events0, eserial0, CommentDrafts(item, comment, agents[..i]), now)
        invariant log.serial == eserial0 + 1 + i
        invariant inbox.Notifications() == notes0 + Notifications.Stamped(MentionAlerts(item, comment, agents[..i], author), nserial0, now)
        invariant inbox.serial == nserial0 + i
      {
        AnnounceMention(item, comment, agents, i, author, now, events0, eserial0, notes0, nserial0);
      }
      assert agents[..|agents|] == agents;
    }

    /** One pass of the mention loop: AGENT_MENTIONED for agents[i], then its notification. */
    method AnnounceMention(item: Item, comment: Comment, agents: seq<Agent>, i: nat, author: JsStr, now: int,
                           ghost events0: seq<Events.Event>, ghost eserial0: nat,
                           ghost notes0: seq<Notifications.Notification>, ghost nserial0: nat)
      requires i < |agents|
      requires log.Events() == Events.LogAfter(events0, eserial0, CommentDrafts(item, comment, agents[..i]), now) && log.serial == eserial0 + 1 + i
      requires inbox.Notifications() == notes0 + Notifications.Stamped(MentionAlerts(item, comment, agents[..i], author), nserial0, now)
      requires inbox.serial == nserial0 + i
      modifies log, inbox
      ensures log.Events() == Events.LogAfter(events0, eserial0, CommentDrafts(item, comment, agents[..i + 1]), now) && log.serial == eserial0 + 2 + i
      ensures inbox.Notifications() == notes0 + Notifications.Stamped(MentionAlerts(item, comment, agents[..i + 1], author), nserial0, now)
      ensures inbox.serial == nserial0 + i + 1
    {
      Emit(MentionDraft(item, comment, agents[i], comment.author), now, events0, eserial0, CommentDrafts(item, comment, agents[..i]));
      CommentDraftsStep(item, comment, agents, i);
      Notify(MentionAlert(item, comment, agents[i], author), now, notes0, nserial0, MentionAlerts(item, comment, agents[..i], author));
      MentionAlertsStep(item, comment, agents, author, i);
    }

    /**
     * The `addEvent` and `addNotification` calls of `POST /items/:id/comments`: COMMENT_ADDED,
     * then the mentions; with no mention, a notification for Jimmy when Kenny wrote the comment.
     */
    method AnnounceComment(item: Item, comment: Comment, agents: seq<Agent>, author: JsStr, now: int)
      modifies log, inbox
      ensures log.Events() == Events.LogAfter(old(log.Events()), old(log.serial), CommentDrafts(item, comment, agents), now)
      ensures log.serial == old(log.serial) + 1 + |agents|
      ensures inbox.Notifications() == old(inbox.Notifications()) + Notifications.Stamped(CommentAlerts(item, comment, agents, author), old(inbox.serial), now)
      ensures inbox.serial == old(inbox.serial) + |CommentAlerts(item, comment, agents, author)|
    {
      ghost var events0, eserial0 := log.Events(), log.serial;
      ghost var notes0, nserial0 := inbox.Notifications(), inbox.serial;
      Emit(AddedDraft(item, comment), now, events0, eserial0, []);
      assert [AddedDraft(item, comment)] == CommentDrafts(item, comment, []);
      AnnounceMentions(item, comment, agents, author, now, events0, eserial0, notes0, nserial0);
      ghost var alerts := MentionAlerts(item, comment, agents, author);
      if agents == [] && author == Str("kenny") {
        var a := Notifications.Alert(Notifications.KennyComment,
          Notifications.CommentAlert(item.id, item.Get(Title), comment.id, comment.text, comment.createdAt));
        Notify(a, now, notes0, nserial0, alerts);
        assert alerts + [a] == CommentAlerts(item, comment, agents, author);
      } else {
        assert alerts == CommentAlerts(item, comment, agents, author);
      }
    }

    /**
     * `POST /items/:id/comments`: appends the comment and logs COMMENT_ADDED; then, for each
     * mentioned agent in order of first mention, logs AGENT_MENTIONED and notifies it; with
     * no mention, a comment by Kenny notifies Jimmy.
     */
    method AddComment(id: string, text: string, author: JsStr, now: int) returns (r: Result<Comment, Errors.AppError>)
      requires Valid()
      modifies this, log, inbox
      ensures Valid()
      ensures FindItem(old(columns), id).None? <==> r == Failure(Errors.NotFound(Some("Item")))
      ensures r.Failure? ==> unchanged(this) && unchanged(log) && unchanged(inbox)
      ensures r.Success? ==> FindItem(old(columns), id).Some?
      ensures r.Success? ==>
        var p := FindItem(old(columns), id).value;
        var item := old(columns)[p.column].items[p.index];
        var agents := MentionedAgents(text);
        && r.value == Comment(Data.UniqueId("comment", old(serial)), text, CommentAuthor(author), now)
        && columns == WithItems(old(columns), p.column, old(columns)[p.column].items[p.index := item.(comments := item.comments + [r.value])])
        && serial == old(serial) + 1 && nextTicketNumber == old(nextTicketNumber) && lastUpdated == now
        && log.Events() == Events.LogAfter(old(log.Events()), old(log.serial), CommentDrafts(item, r.value, agents), now)
        && log.serial == old(log.serial) + 1 + |agents|
        && inbox.Notifications() == old(inbox.Notifications()) + Notifications.Stamped(CommentAlerts(item, r.value, agents, author), old(inbox.serial), now)
        && inbox.serial == old(inbox.serial) + |CommentAlerts(item, r.value, agents, author)|
    {
      var p := Locate(id);
      if p.None? {
        return Failure(Errors.NotFound(Some("Item")));
      }
      var pos := p.value;
      var item := columns[pos.column].items[pos.index];
      var comment := Comment(Data.UniqueId("comment", serial), text, CommentAuthor(author), now);
      AnnounceComment(item, comment, MentionedAgents(text), author, now);
      var updated := item.(comments := item.comments + [comment]);
      ReplaceKeepsBoardOk(columns, serial, TicketNumber(nextTicketNumber), pos, updated, serial + 1);
      Write(WithItems(columns, pos.column, columns[pos.column].items[pos.index := updated]), serial + 1, nextTicketNumber, now);
      return Success(comment);
    }

    /** `POST /items/:id/subtasks`: appends an open subtask and logs SUBTASK_ADDED, or fails with NotFound. */
    method AddSubtask(id: string, text: JsStr, xUser: JsStr, now: int) returns (r: Result<Subtask, Errors.AppError>)
      requires Valid()
      modifies this, log
      ensures Valid()
      ensures FindItem(old(columns), id).None? <==> r == Failure(Errors.NotFound(Some("Item")))
      ensures r.Failure? ==> unchanged(this) && unchanged(log)
      ensures r.Success? ==> FindItem(old(columns), id).Some?
      ensures r.Success? ==>
        var p := FindItem(old(columns), id).value;
        var item := old(columns)[p.column].items[p.index];
        && r.value == Subtask(Data.UniqueId("subtask", old(serial)), text, false, now)
        && columns == WithItems(old(columns), p.column, old(columns)[p.column].items[p.index := item.(subtasks := item.subtasks + [r.value])])
        && serial == old(serial) + 1 && nextTicketNumber == old(nextTicketNumber) && lastUpdated == now
        && log.Events() == Events.LogAfter(old(log.Events()), old(log.serial),
             [Events.Draft(Events.SUBTASK_ADDED, Events.Payload(item.id, item.number, item.Get(Title), Events.SubtaskAdded(r.value.id, text)), OrElse(xUser, "system"))], now)
        && log.serial == old(log.serial) + 1
    {
      var p := Locate(id);
      if p.None? {
        return Failure(Errors.NotFound(Some("Item")));
      }
      var pos := p.value;
      var item := columns[pos.column].items[pos.index];
      var subtask := Subtask(Data.UniqueId("subtask", serial), text, false, now);
      Emit(Events.Draft(Events.SUBTASK_ADDED, Events.Payload(item.id, item.number, item.Get(Title), Events.SubtaskAdded(subtask.id, text)), OrElse(xUser, "system")),
        now, log.Events(), log.serial, []);
      var updated := item.(subtasks := item.subtasks + [subtask]);
      ReplaceKeepsBoardOk(columns, serial, TicketNumber(nextTicketNumber), pos, updated, serial + 1);
      Write(WithItems(columns, pos.column, columns[pos.column].items[pos.index := updated]), serial + 1, nextTicketNumber, now);
      return Success(subtask);
    }

    /**
     * `PUT /items/:id/subtasks/:subtaskId`: applies a differing boolean `completed` and a
     * differing defined `text`; writes the board even when nothing changed, and logs
     * SUBTASK_UPDATED only when something did.
     */
    method UpdateSubtaskOf(id: string, subtaskId: string, req: SubtaskUpdate, xUser: JsStr, now: int) returns (r: Result<Subtask, Errors.AppError>)
      requires Valid()
      modifies this, log
      ensures Valid()
      ensures (FindItem(old(columns), id).None? ||
               IndexOfSubtask(old(columns)[FindItem(old(columns), id).value.column].items[FindItem(old(columns), id).value.index].subtasks, subtaskId).None?)
        <==> r == Failure(Errors.NotFound(Some("Subtask")))
      ensures r.Failure? ==> unchanged(this) && unchanged(log)
      ensures r.Success? ==> FindItem(old(columns), id).Some?
      ensures r.Success? ==>
        var p := FindItem(old(columns), id).value;
        var item := old(columns)[p.column].items[p.index];
        IndexOfSubtask(item.subtasks, subtaskId).Some? &&
        var s := IndexOfSubtask(item.subtasks, subtaskId).value;
        var outcome := UpdateSubtask(item.subtasks[s], req.completed, req.text);
        && r.value == outcome.0
        && columns == WithItems(old(columns), p.column, old(columns)[p.column].items[p.index := item.(subtasks := item.subtasks[s := outcome.0])])
        && serial == old(serial) && nextTicketNumber == old(nextTicketNumber) && lastUpdated == now
        && log.Events() == Events.LogAfter(old(log.Events()), old(log.serial), SubtaskDrafts(item, item.subtasks[s], outcome.1, outcome.2, OrElse(xUser, "system")), now)
        && log.serial == old(log.serial) + |SubtaskDrafts(item, item.subtasks[s], outcome.1, outcome.2, OrElse(xUser, "system"))|
    {
      var p := Locate(id);
      if p.None? {
        return Failure(Errors.NotFound(Some("Subtask")));
      }
      var pos := p.value;
      var item := columns[pos.column].items[pos.index];
      var s := IndexOfSubtask(item.subtasks, subtaskId);
      if s.None? {
        return Failure(Errors.NotFound(Some("Subtask")));
      }
      var st := item.subtasks[s.value];
      var outcome := UpdateSubtask(st, req.completed, req.text);
      if outcome.1.Some? || outcome.2.Some? {
        Emit(Events.Draft(Events.SUBTASK_UPDATED, Events.Payload(item.id, item.number, Undefined, Events.SubtaskUpdated(st.id, outcome.1, outcome.2)), OrElse(xUser, "system")),
          now, log.Events(), log.serial, []);
      }
      var updated := item.(subtasks := item.subtasks[s.value := outcome.0]);
      ReplaceKeepsBoardOk(columns, serial, TicketNumber(nextTicketNumber), pos, updated, serial);
      Write(WithItems(columns, pos.column, columns[pos.column].items[pos.index := updated]), serial, nextTicketNumber, now);
      return Success(outcome.0);
    }

    /** `DELETE /items/:id/subtasks/:subtaskId`: splices the subtask out and logs SUBTASK_DELETED, or fails with NotFound. */
    method DeleteSubtask(id: string, subtaskId: string, xUser: JsStr, now: int) returns (r: Result<Subtask, Errors.AppError>)
      requires Valid()
      modifies this, log
      ensures Valid()
      ensures (FindItem(old(columns), id).None? ||
               IndexOfSubtask(old(columns)[FindItem(old(columns), id).value.column].items[FindItem(old(columns), id).value.index].subtasks, subtaskId).None?)
        <==> r == Failure(Errors.NotFound(Some("Subtask")))
      ensures r.Failure? ==> unchanged(this) && unchanged(log)
      ensures r.Success? ==> FindItem(old(columns), id).Some?
      ensures r.Success? ==>
        var p := FindItem(old(columns), id).value;
        var item := old(columns)[p.column].items[p.index];
        IndexOfSubtask(item.subtasks, subtaskId).Some? &&
        var s := IndexOfSubtask(item.subtasks, subtaskId).value;
        && r.value == item.subtasks[s]
        && r.value.id == subtaskId
        && columns == WithItems(old(columns), p.column, old(columns)[p.column].items[p.index := item.(subtasks := RemoveAt(item.subtasks, s))])
        && serial == old(serial) && nextTicketNumber == old(nextTicketNumber) && lastUpdated == now
        && log.Events() == Events.LogAfter(old(log.Events()), old(log.serial),
             [Events.Draft(Events.SUBTASK_DELETED, Events.Payload(item.id, item.number, Undefined, Events.SubtaskDeleted(r.value.id, r.value.text)), OrElse(xUser, "system"))], now)
        && log.serial == old(log.serial) + 1
    {
      var p := Locate(id);
      if p.None? {
        return Failure(Errors.NotFound(Some("Subtask")));
      }
      var pos := p.value;
      var item := columns[pos.column].items[pos.index];
      var s := IndexOfSubtask(item.subtasks, subtaskId);
      if s.None? {
        return Failure(Errors.NotFound(Some("Subtask")));
      }
      var removed := item.subtasks[s.value];
      Emit(Events.Draft(Events.SUBTASK_DELETED, Events.Payload(item.id, item.number, Undefined, Events.SubtaskDeleted(removed.id, removed.text)), OrElse(xUser, "system")),
        now, log.Events(), log.serial, []);
      var updated := item.(subtasks := RemoveAt(item.subtasks, s.value));
      ReplaceKeepsBoardOk(columns, serial, TicketNumber(nextTicketNumber), pos, updated, serial);
      Write(WithItems(columns, pos.column, columns[pos.column].items[pos.index := updated]), serial, nextTicketNumber, now);
      return Success(removed);
    }
  }
}
