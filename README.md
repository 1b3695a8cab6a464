# Kanban board state engine, modelled in Dafny

This project models the core of a small kanban server and its browser client.
The server keeps three JSON documents:

- the board: five fixed columns of items, with a ticket counter;
- the event log: capped at the newest 1000 events;
- the notification inbox.

The route handlers change these documents. The model covers:

- the board routes: metrics, create, update, move, delete, comments and subtasks;
- the data helpers: ids, tags, stage times and cycle time;
- the event log and its query;
- the notification store and routes;
- the request validators written in the application's own code;
- the error handler;
- the client's escaping, mention highlighting, title templates, state and undo stack.

Each document that a handler changes in place is a class:

- `Board.Engine` for the board;
- `Events.EventLog` for the event log;
- `Notifications.NotificationStore` for the inbox;
- `ClientState.ClientState` for the client's module variables, undo stack included.

Each handler is a method. Its `ensures` gives the complete new state of all three documents, in terms of specification functions over the old state. The board invariant `BoardOk` holds throughout:

- the fixed column table;
- every item id on the board exactly once;
- ids that the id counter can still issue are absent from the board;
- ticket numbers below the next one to be issued.

Loops in the source are methods with loop invariants:

- the metrics loops;
- `calculateStageTime`;
- the handlers' item search;
- the mention loop;
- `findItemById`.

The rest is pure functions and lemmas.

A few JavaScript behaviours are modelled explicitly:

- `JsStr` (`Undefined | Null | Str`) models JavaScript's `||`, truthiness and `!==` on optional string fields. This matters because `null !== undefined` decides, for example, whether a `blockedBy` change is reported.
- Time is a parameter `now`, in milliseconds. Each handler reads one clock value.
- `uniqueId(prefix)` is `prefix-<counter>`. The counter stands for the timestamp and random suffix, so a new id is provably fresh.

## Model

| member | source | states |
|---|---|---|
| Text.TrimShape | kanban/lib/data.js:64 | `trim` leaves a slice of its input that neither starts nor ends with whitespace; `Text.Trim` is the model of `trim` |
| Text.TrimIdempotent | kanban/lib/data.js:64 | trimming twice is trimming once |
| Text.Utf16Length | kanban/middleware/validation.js:80 | `length` counts UTF-16 code units: between one and two per character, exactly one each iff no character is astral, exactly two each iff all are |
| Text.DecimalRoundTrip | kanban/lib/data.js:14-16 | the decimal rendering used in ids reads back as the same number |
| Text.HtmlEscapeWellEscaped | kanban/middleware/validation.js:89 | the escaped text has no raw `<`, `>` or `"`, and every `&` in it opens an entity; this is `Text.HtmlEscape`, the one-pass escape |
| Text.HtmlEscapeRoundTrip | kanban/middleware/validation.js:89 | unescaping the escaped text gives the original back, so escaping loses nothing |
| Constants.ColumnsAreFixed | kanban/lib/constants.js:16-22 | the column table is exactly backlog, todo, doing, review, done, with no repeated id |
| Constants.GetUserName | kanban/lib/constants.js:11-13 | kenny and jimmy get their display names, another non-empty id is shown as itself, and the empty id is Unknown |
| Constants.InheritedNameShowsThrough | kanban/lib/constants.js:11-13 | the written lookup sees inherited properties: `constructor` is shown as `Object`; `Constants.GetUserNameAsWritten` is that lookup |
| Constants.GetUserNameAgrees | kanban/lib/constants.js:11-13 | the written lookup agrees with the own-property lookup on every id other than `constructor`, and the own-property lookup shows `constructor` as itself |
| Data.UniqueId | kanban/lib/data.js:14-16 | an id starts with its prefix and a dash |
| Data.UniqueIdRoundTrip | kanban/lib/data.js:14-16 | the serial can be read back out of an id |
| Data.UniqueIdInjective | kanban/lib/data.js:14-16 | ids drawn from different serials differ |
| Data.CleanedEntries | kanban/lib/data.js:63-65 | every cleaned tag is non-blank and trimmed; `Data.Cleaned` is the map/trim/filter chain |
| Data.CleanedSingle | kanban/lib/data.js:63-65 | a single entry survives, trimmed, exactly when it is not blank |
| Data.NormalizeTags | kanban/lib/data.js:57-68 | null or missing gives the default tag; a non-array fails with the source's message; otherwise the result is the cleaned list, or the default when that is empty |
| Data.CleanedFixed | kanban/lib/data.js:63-65 | a list of trimmed, non-blank strings cleans to itself |
| Data.NormalizeTagsIdempotent | kanban/lib/data.js:57-68 | normalising already normalised tags changes nothing |
| Data.VisitedColumnsNoRepeats | kanban/lib/data.js:86-88 | each stage appears once among the stage-time keys |
| Data.VisitedColumnsMembers | kanban/lib/data.js:86-88 | a stage is a key exactly when some history entry is for it |
| Data.CalculateStageTime | kanban/lib/data.js:71-93 | the loop's map has exactly the visited columns as keys, each with its summed durations; an empty history gives the empty map |
| Data.StageTimeStep | kanban/lib/data.js:79-90 | entry i adds its duration to its own column and changes no other column; `Data.TimeIn` and `Data.VisitedColumns` are the reference sums and keys |
| Data.TotalDurationTelescopes | kanban/lib/data.js:81-84 | the durations of the first n entries add up to the time from the first entry to the end of entry n-1 |
| Data.TimeInUnvisited | kanban/lib/data.js:86-89 | a column with no entry has accumulated no time |
| Data.StageTimesAccountForAll | kanban/lib/data.js:79-90 | summed over the visited columns, the stage times equal the sum of all entry durations |
| Data.StageTimesSumToElapsed | kanban/lib/data.js:71-93 | the stage times of a history add up to `now` minus its first entry time |
| Data.FirstEntry | kanban/lib/data.js:101-102 | `find` returns the first entry for the column, or none when no entry is for it |
| Data.CalculateCycleTime | kanban/lib/data.js:96-109 | null unless both a todo and a done entry exist; otherwise the first done time minus the first todo time |
| Validation.ValidColumnsAreTheBoardColumns | kanban/middleware/validation.js:3 | the validator's column list equals the board's column table |
| Validation.UserListMessage | kanban/middleware/validation.js:56 | the user list reads `kenny, jimmy` in the message |
| Validation.PriorityListMessage | kanban/middleware/validation.js:51 | the priority list reads `low, medium, high` in the message |
| Validation.ColumnListMessage | kanban/middleware/validation.js:93 | the column list reads `backlog, todo, doing, review, done` in the message |
| Validation.EntryError | kanban/middleware/validation.js:77-81 | there is no error exactly when every entry is a string whose trimmed length, in UTF-16 code units, is at most 30; otherwise the error is one of the loop's two messages |
| Validation.AstralTagTooLong | kanban/middleware/validation.js:80 | a tag of sixteen emoji has length 32 and is rejected with the length message |
| Validation.EscapeAll | kanban/middleware/validation.js:89 | each tag is replaced by its HTML escape, and the length and order are kept |
| Validation.CheckTags | kanban/middleware/validation.js:72-89 | skipped exactly when missing; a value that is no array makes the second sanitiser throw; more than 20 entries are rejected with their message; otherwise it succeeds exactly when no entry fails, and a failure carries the entry loop's message |
| Validation.AcceptedTags | kanban/middleware/validation.js:84-89 | accepted tags are the trimmed, non-blank entries in order, each well escaped, and each unescapes to its cleaned entry |
| Validation.CheckUserField | kanban/middleware/validation.js:53-57 | null and undefined pass unchanged; a string passes, trimmed and lower-cased, exactly when it is then empty, kenny or jimmy; otherwise it fails with the field's message |
| Validation.CheckUserFieldStable | kanban/middleware/validation.js:66-70 | an accepted value is empty, kenny or jimmy, and checking it again gives it back |
| Validation.AcceptedUserStable | kanban/middleware/validation.js:55-56 | an accepted name passes the sanitiser and the membership check unchanged |
| Validation.LowerWordSanitised | kanban/middleware/validation.js:55 | a name of lower-case letters is unchanged by `trim` and `toLowerCase`; `Text.ToLower` is `toLowerCase` on ASCII letters |
| Errors.NewAppError | kanban/middleware/errorHandler.js:10-14 | the status defaults to 500 and the details to none |
| Errors.BadRequest | kanban/middleware/errorHandler.js:20-22 | status 400, with the given message and details |
| Errors.NotFound | kanban/middleware/errorHandler.js:24-26 | status 404 with message `<resource> not found`; the resource defaults to `Resource` |
| Errors.Conflict | kanban/middleware/errorHandler.js:28-30 | status 409 with the given message |
| Errors.Internal | kanban/middleware/errorHandler.js:32-34 | status 500; the message defaults to `Internal server error` |
| Errors.HandleError | kanban/middleware/errorHandler.js:46-82 | sent headers pass the error on; an AppError is answered with its status, message and details; a body parse error gets 400 Invalid JSON with the body detail; any other error gets its status or 500, with its message shown only when it is operational; `Errors.OrStatus` is `statusCode \|\| status \|\| 500` |
| Errors.InternalMessagesHidden | kanban/middleware/errorHandler.js:77-81 | a non-operational error never shows its own message |
| Errors.FactoriesRespond | kanban/middleware/errorHandler.js:60-67 | the error of each factory is answered with that factory's status and message |
| Errors.RouteNotFound | kanban/middleware/errorHandler.js:86-89 | status 404, with a message that names the method and the full URL |
| Events.TypeNamed | kanban/lib/events.js:13-33 | a type found for a name carries exactly that name and is one of the listed types |
| Events.EventTypesClosed | kanban/lib/events.js:13-33 | there are exactly 12 types, and every type is listed |
| Events.TypeNamedName | kanban/lib/events.js:13-33 | each type is found again by its own name |
| Events.PositionOfListed | kanban/lib/events.js:13-33 | each type sits at its own position in the list |
| Events.EventTypeNamesDistinct | kanban/lib/events.js:13-33 | no two types share a name |
| Events.Retain | kanban/lib/events.js:76-78 | the result holds at most 1000 events, or is the log itself |
| Events.RetainKeepsNewest | kanban/lib/events.js:76-78 | a log below the cap is kept whole; otherwise the newest 1000 are kept, in order |
| Events.AppendAtCapDropsOldest | kanban/lib/events.js:73-78 | one append to a full log drops exactly the oldest event |
| Events.RetainRetain | kanban/lib/events.js:73-78 | capping after every append equals capping once at the end |
| Events.Stamped | kanban/lib/events.js:65-71 | one event per draft |
| Events.StampedAt | kanban/lib/events.js:65-71 | the k-th event of a run carries the k-th id after the counter |
| Events.LogAfter | kanban/lib/events.js:61-82 | a run of appends leaves the old log plus the new events, capped; an empty run leaves the log as it was |
| Events.LogAfterStep | kanban/lib/events.js:61-82 | one more `addEvent` call extends the run by one event |
| Events.ReadEvents | kanban/lib/events.js:43-49 | a missing or unreadable file reads as an empty log |
| Events.EventLog.constructor | kanban/lib/events.js:36-49 | the log starts as the stored file, or as empty when there is none, with the id counter at zero |
| Events.EventLog.AddEvent | kanban/lib/events.js:61-82 | builds the event with a fresh id, `now` and the actor (`system` by default); then appends it and applies the cap |
| Events.FilterEvents | kanban/lib/events.js:98-114 | no more events than the log, every kept event matches the filters, and none is kept more often than it occurs in the log |
| Events.FilterEventsExact | kanban/lib/events.js:98-114 | an event is kept exactly when it is in the log and passes every filter that is set |
| Events.InsertByTime | kanban/lib/events.js:117 | inserting adds just that event |
| Events.InsertByTimeSorted | kanban/lib/events.js:117 | inserting into a newest-first list keeps it newest first |
| Events.SortNewestFirst | kanban/lib/events.js:117 | the sort is a permutation of its input |
| Events.SortNewestFirstSorted | kanban/lib/events.js:117 | the sorted events are newest first |
| Events.SortKeepsSortedList | kanban/lib/events.js:117 | a list already newest first comes back unchanged, so equal timestamps keep log order |
| Events.InsertAfterAll | kanban/lib/events.js:117 | an event no newer than any element of a list goes to its end |
| Events.EffectiveLimit | kanban/lib/events.js:120 | a missing or zero limit becomes 100 |
| Events.SliceEnd | kanban/lib/events.js:121 | a non-negative end is clamped to the length; a negative end counts from the back |
| Events.GetEvents | kanban/lib/events.js:93-124 | the result is newest first, holds only matching events drawn from the log, has at most `limit` of them, and every matching event it leaves out is no newer than every one it returns |
| Events.PrefixIsNewest | kanban/lib/events.js:117-121 | cutting a newest-first list at `limit` drops only events no newer than every kept one |
| Events.TakeIsSubMultiset | kanban/lib/events.js:121 | a prefix holds no element more often than the list |
| Events.GetEventsComplete | kanban/lib/events.js:93-124 | when all matching events fit in the limit, the query returns the matching events as a multiset, and an event is returned exactly when it is in the log and matches |
| Notifications.Stamped | kanban/lib/notifications.js:33-38 | one notification per alert |
| Notifications.StampedAt | kanban/lib/notifications.js:33-38 | the k-th notification of a run carries the k-th id after the counter |
| Notifications.ReadNotifications | kanban/lib/notifications.js:19-25 | a missing or unreadable file reads as an empty list |
| Notifications.IndexOfNotification | kanban/routes/notifications.js:24 | the index found is the first entry with the id, and none means that no entry has it |
| Notifications.RemoveAtIsRemoval | kanban/routes/notifications.js:27 | removing one entry removes exactly that entry |
| Notifications.NotificationStore.constructor | kanban/lib/notifications.js:12-25 | the inbox starts as the stored file, or as empty, with the id counter at zero |
| Notifications.NotificationStore.AddNotification | kanban/lib/notifications.js:31-40 | appends one notification with a fresh id, the type, the payload and `now` |
| Notifications.NotificationStore.List | kanban/routes/notifications.js:15-18 | returns the stored list and changes nothing |
| Notifications.NotificationStore.DeleteById | kanban/routes/notifications.js:21-33 | removes and returns the first entry with the id; else fails with `Notification not found` and changes nothing |
| Notifications.NotificationStore.ClearAll | kanban/routes/notifications.js:36-39 | leaves the list empty |
| BoardTypes.OrElse | kanban/routes/board.js:146 | `v \|\| fallback`: a truthy value is kept, and anything else gives the fallback |
| BoardTypes.IndexOfId | kanban/routes/board.js:239 | `findIndex`: the first item with the id, or none when no item has it |
| BoardTypes.FindItemFrom | kanban/routes/board.js:238-240 | the position found holds the id, and none means that no column from `from` on holds it |
| BoardTypes.FindItemIsFirst | kanban/routes/board.js:352-359 | the search finds the id exactly when it is on the board, and finds its first position in board order |
| BoardTypes.CountIn | kanban/routes/board.js:239 | the count of items with the id is at most the column's size |
| BoardRules.CountMember | kanban/routes/board.js:239 | an id is counted exactly when some item carries it |
| BoardTypes.RemoveAt | kanban/routes/board.js:445 | `splice(i, 1)` keeps everything before and after i, in order |
| BoardRules.RemoveAtCount | kanban/routes/board.js:445 | splicing an item out removes one occurrence of its id and no other id |
| BoardRules.SpliceStart | kanban/routes/board.js:430 | a negative start counts from the end, and both ends clamp to the list |
| BoardRules.InsertAt | kanban/routes/board.js:430 | `splice(k, 0, x)` puts x at k, with the old items before and after it |
| BoardRules.InsertAtCount | kanban/routes/board.js:430 | inserting adds one occurrence of x's id and none of any other id |
| BoardRules.ReplaceCount | kanban/routes/board.js:322 | overwriting an item with one of the same id keeps every id count |
| BoardRules.WithItems | kanban/routes/board.js:322 | only the one column's items change; ids, titles and the other columns stay |
| BoardRules.WithItemsCount | kanban/routes/board.js:322 | replacing a column's items trades that column's ids and size for the new ones |
| BoardRules.OccurrencesMember | kanban/routes/board.js:238-240 | an id occurs on the board exactly when some column holds it |
| BoardRules.EmptyColumnsNoItems | kanban/lib/data.js:30 | a board whose columns are all empty holds no id |
| BoardRules.FindItemIffOnBoard | kanban/routes/board.js:238-240 | the search finds an id exactly when the id occurs on the board |
| BoardRules.NumbersBelowTicket | kanban/routes/board.js:155-157 | on a valid board, every ticket number is below the next one to be issued |
| BoardRules.InitialColumns | kanban/lib/data.js:26-35 | the initial board is the five fixed columns, all empty |
| BoardRules.FewerIdsKeepInvariant | kanban/routes/board.js:445 | fewer ids and no new ones keep ids unique and the counter fresh |
| BoardRules.FreshIdKeepsInvariant | kanban/routes/board.js:177 | adding the counter's id and then advancing the counter keeps ids unique and fresh |
| BoardRules.AppendKeepsBoardOk | kanban/routes/board.js:200-203 | pushing the new item keeps the board invariant, and adds one item that occurs once |
| BoardRules.ReplaceKeepsBoardOk | kanban/routes/board.js:316-323 | merging an update in place keeps the invariant, every id count and the size |
| BoardRules.RemoveKeepsBoardOk | kanban/routes/board.js:442-446 | splicing an item out keeps the invariant; its id leaves the board and no other id changes |
| BoardRules.WithItemsShape | kanban/routes/board.js:430 | replacing a column's items with well-formed ones keeps the column table and the item shape |
| BoardRules.InsertAtOk | kanban/routes/board.js:430 | inserting a well-formed item keeps a column well-formed |
| BoardRules.MoveKeepsBoardOk | kanban/routes/board.js:352-432 | splicing an item out and back in keeps the invariant, every id count and the size |
| BoardRules.CreatorFrom | kanban/routes/board.js:168-175 | the creator is trimmed and lower-cased, and becomes jimmy when it is a placeholder |
| BoardRules.ResolveCreatedBy | kanban/routes/board.js:160-175 | the creator comes from the first truthy of body, x-user, x-user-id and x-created-by; it is never a placeholder, and it is jimmy when none is set |
| BoardRules.TicketNumber | kanban/routes/board.js:155-157 | a non-zero counter gives its own value; the number is always at least 1 and at least the counter |
| BoardRules.FieldChanges | kanban/routes/board.js:246-250 | a key is in the changes exactly when its new value differs under `!==`, recorded as old and new value |
| BoardRules.TagsChangeOf | kanban/routes/board.js:246-250 | a present tags key is always reported, as old and new list |
| BoardRules.HasChangesIff | kanban/routes/board.js:326 | ITEM_UPDATED is due exactly when tags are present or some field differs |
| BoardRules.AssignText | kanban/routes/board.js:257 | `Assigned to <name>` for a truthy assignee, otherwise `Unassigned` |
| BoardRules.BlockText | kanban/routes/board.js:285 | `Blocked by <name>` for a truthy blocker, otherwise `Unblocked` |
| BoardRules.Merge | kanban/routes/board.js:316-322 | sent keys override, other fields stay, the auto-comments are appended, and the id and number are kept |
| BoardRules.MoveActor | kanban/routes/board.js:372 | movedBy, else the assignee, else `unknown`; never empty |
| BoardRules.Capitalized | kanban/routes/board.js:385 | the first character is upper-cased and the rest is kept |
| BoardRules.CapitalizedColumns | kanban/routes/board.js:385 | the five column ids capitalise to their titles |
| BoardRules.RequestedIndex | kanban/routes/board.js:426-428 | a numeric position is used as given; otherwise done gets 0 and other columns get their length |
| BoardRules.MovedItem | kanban/routes/board.js:375-393 | a move to another column appends one stage entry for the target and one system comment; a reorder within a column leaves the item as it is; `BoardRules.MoveText` is the `Moved to <Column> by <name>` text |
| BoardRules.AliasesAreLetters | kanban/routes/board.js:492-497 | the seven aliases are lower-case letters only, and pairwise distinct |
| BoardRules.MatchAt | kanban/routes/board.js:497 | the alternative found lies at or beyond where the search started |
| BoardRules.MatchAtSome | kanban/routes/board.js:497 | the alternative found does match at the position |
| BoardRules.MatchAtNone | kanban/routes/board.js:497 | when nothing is found, no alternative matches at the position |
| BoardRules.LetterInsideMatch | kanban/routes/board.js:497 | inside a match of a letter alias, every character is a word character |
| BoardRules.AtMostOneAlias | kanban/routes/board.js:497 | at most one alternative matches at a position, because `\b` ends each match |
| BoardRules.SkipInsideMatch | kanban/routes/board.js:497-498 | no match starts inside an earlier match, so resuming the global scan after it misses none |
| BoardRules.MentionAtMatch | kanban/routes/board.js:497-498 | the scan's first alternative at a position decides the agent mentioned there |
| BoardRules.MentionedFromSound | kanban/routes/board.js:497-498 | every agent that the scan reports has an alias matching at some position |
| BoardRules.MatchAfterMatch | kanban/routes/board.js:497-498 | a match after a match starts at or beyond that match's end |
| BoardRules.MentionsFromMatch | kanban/routes/board.js:497-498 | a match reports its agent, and the scan resumes after it |
| BoardRules.MentionsFromNoMatch | kanban/routes/board.js:497-498 | without a match the scan moves on by one character |
| BoardRules.MentionedFromComplete | kanban/routes/board.js:497-498 | every alias match in the text is reported by the scan |
| BoardRules.MentionedFromIff | kanban/routes/board.js:492-498 | an agent is mentioned exactly when one of its aliases matches at some position; `BoardRules.MentionsFrom` and `BoardRules.Mentions` are the regex scan |
| BoardRules.Dedupe | kanban/routes/board.js:499 | `[...new Set(list)]` has the same elements, with no repeats |
| BoardRules.FirstIndex | kanban/routes/board.js:499 | the first occurrence of an element is at that index and at no earlier one |
| BoardRules.DedupeFirstOrder | kanban/routes/board.js:499 | the kept elements appear in the order of their first occurrence |
| BoardRules.FirstIndexPrefix | kanban/routes/board.js:499 | appending an element does not move the first occurrences already in the list |
| BoardRules.UpdateSubtask | kanban/routes/board.js:591-599 | a boolean `completed` that differs, and a defined `text` that differs, are each applied and reported as old and new value; anything else stays |
| BoardRules.IndexOfSubtask | kanban/routes/board.js:628 | the index found is the first subtask with the id, and none means that no subtask has it |
| Board.ColumnIndex | kanban/routes/board.js:366 | the index found is the first column with the id, and none means that no column has it |
| Board.NewItem | kanban/routes/board.js:176-198 | the new item gets the counter's id, the ticket number, defaults for description, priority and assignee, a `Created by` comment, and one stage entry for the target column |
| Board.NewItemDefaults | kanban/routes/board.js:146-198 | no column id gives a todo stage entry (`Board.TargetColumn`); a falsy priority gives medium and a falsy assignee jimmy, and truthy ones are kept; the comment is `Created by <name>` |
| Board.CreateDraft | kanban/routes/board.js:206-214 | ITEM_CREATED, naming the item, its column, priority, assignee and tags, by the creator |
| Board.UpdateActor | kanban/routes/board.js:227 | x-user, else updatedBy, else `system`; never empty |
| Board.UpdateTags | kanban/routes/board.js:230-236 | without a tags key there is nothing to do; otherwise the tags are normalised, or fail with the normaliser's message |
| Board.AutoComments | kanban/routes/board.js:252-314 | a changed assignee and a changed blocker each add one system comment stamped `now`, and nothing else adds one; built by `Board.AssignComments` and `Board.BlockComments` |
| Board.UpdateDraftsTypes | kanban/routes/board.js:252-333 | ITEM_ASSIGNED, ITEM_BLOCKED, ITEM_UNBLOCKED and ITEM_UPDATED are each logged exactly when their condition holds; built by `Board.AssignDrafts`, `Board.BlockDrafts`, `Board.UpdatedDrafts` and `Board.UpdateDrafts` |
| Board.UpdateDraftsCount | kanban/routes/board.js:252-333 | one event per auto-comment, plus ITEM_UPDATED when something changed; all by the actor and about the item |
| Board.UpdateAlerts | kanban/routes/board.js:271-313 | Kenny is notified when newly assigned and when newly named as blocker, and at no other time; built by `Board.AssignAlerts` and `Board.BlockAlerts` |
| Board.MoveDrafts | kanban/routes/board.js:375-402 | a move to another column logs one ITEM_MOVED with the from and to columns; a reorder logs nothing |
| Board.MoveAlerts | kanban/routes/board.js:404-420 | a cross-column move to done by jimmy notifies `jimmy_completed`; a cross-column move to review notifies `moved_to_review`; nothing else notifies |
| Board.CommentDrafts | kanban/routes/board.js:482-509 | one event more than there are mentioned agents |
| Board.CommentDraftsShape | kanban/routes/board.js:482-509 | COMMENT_ADDED comes first, then the mentions in agent order, all by the author and about the item; `Board.AddedDraft` and `Board.MentionDraft` are the two events |
| Board.CommentDraftsStep | kanban/routes/board.js:501-509 | one more agent extends the run by its AGENT_MENTIONED |
| Board.MentionAlerts | kanban/routes/board.js:511-520 | exactly one notification per mentioned agent |
| Board.MentionAlertsStep | kanban/routes/board.js:511-520 | one more agent extends the notifications by its `mention_agent` |
| Board.CommentAlerts | kanban/routes/board.js:501-535 | the mention notifications; with no mention, `kenny_comment` exactly when the author is kenny; `Board.MentionAlert` is one agent's notification |
| Board.MentionAlertInjective | kanban/routes/board.js:511-520 | different agents get different notifications |
| Board.MentionAlertsOncePerAgent | kanban/routes/board.js:491-521 | an agent is notified about a comment exactly when the text mentions one of its aliases; `BoardRules.MentionedAgents` is the deduplicated scan |
| Board.MentionAlertsDistinct | kanban/routes/board.js:499-521 | no agent is notified twice about one comment |
| Board.CommentAuthor | kanban/routes/board.js:475 | the given author, else `unknown`; never empty |
| Board.SubtaskDrafts | kanban/routes/board.js:602-610 | SUBTASK_UPDATED is logged exactly when something changed |
| Board.Engine.constructor | kanban/lib/data.js:26-35 | the board starts as the initial columns, with no ticket counter, and it is valid |
| Board.Engine.Locate | kanban/routes/board.js:238-240 | the handlers' search loop returns the first position of the id |
| Board.Engine.Write | kanban/lib/data.js:50-53 | the new document is stored, and `lastUpdated` is `now` |
| Board.Engine.Append | kanban/routes/board.js:156-202 | the item goes to the end of its column, the counters advance, and the invariant holds |
| Board.Engine.CreateItem | kanban/routes/board.js:143-220 | bad tags, then an unknown column, fail with nothing changed; otherwise the new item is appended, its number is above every number on the board, and ITEM_CREATED is logged |
| Board.Engine.Admit | kanban/routes/board.js:200-214 | the item is appended to column c and ITEM_CREATED is logged |
| Board.Engine.AnnounceAssign | kanban/routes/board.js:253-278 | a changed assignee logs ITEM_ASSIGNED, and notifies `assigned_to_kenny` when the new assignee is kenny |
| Board.Engine.AnnounceBlock | kanban/routes/board.js:281-314 | a changed blocker logs ITEM_BLOCKED or ITEM_UNBLOCKED, and notifies `blocked_by_kenny` when the new blocker is kenny |
| Board.Engine.AnnounceUpdate | kanban/routes/board.js:253-333 | the update's events and notifications, in the handler's order |
| Board.Engine.UpdateItem | kanban/routes/board.js:222-340 | bad tags, then an unknown id, fail with nothing changed; otherwise the merged item replaces the old one in place, every id count is kept, and the events and notifications are as UpdateDrafts and UpdateAlerts say |
| Board.Engine.AnnounceMove | kanban/routes/board.js:375-421 | the move's events and notifications, as MoveDrafts and MoveAlerts say |
| Board.Engine.MoveItem | kanban/routes/board.js:343-434 | an unknown id or target column fails with nothing changed; otherwise the item sits at the clamped index of the target, every id count is kept, and the move's events and notifications are issued |
| Board.Engine.DeleteItem | kanban/routes/board.js:437-461 | the call fails exactly when the id is absent; otherwise the item is spliced out, its id leaves the board, other ids stay, and ITEM_DELETED names its column |
| Board.Engine.AnnounceMentions | kanban/routes/board.js:501-521 | the loop logs AGENT_MENTIONED and notifies `mention_agent` once per agent, in order |
| Board.Engine.AnnounceMention | kanban/routes/board.js:502-520 | one loop pass extends both runs by one agent |
| Board.Engine.AnnounceComment | kanban/routes/board.js:482-535 | COMMENT_ADDED, then the mentions, then `kenny_comment` when due |
| Board.Engine.AddComment | kanban/routes/board.js:464-542 | the call fails exactly when the id is absent; otherwise the comment is appended, and the log and inbox are as CommentDrafts and CommentAlerts for the deduplicated mentions say |
| Board.Engine.AddSubtask | kanban/routes/board.js:545-578 | the call fails exactly when the id is absent; otherwise an open subtask is appended and SUBTASK_ADDED is logged |
| Board.Engine.UpdateSubtaskOf | kanban/routes/board.js:580-618 | an unknown item or subtask fails with `Subtask not found`; otherwise the subtask is updated in place, and SUBTASK_UPDATED is logged when something changed |
| Board.Engine.DeleteSubtask | kanban/routes/board.js:620-647 | an unknown item or subtask fails with `Subtask not found`; otherwise the subtask is spliced out and SUBTASK_DELETED is logged |
| Metrics.AllItemsCount | kanban/routes/board.js:41-48 | the gathered list has one entry per item on the board |
| Metrics.GatherItems | kanban/routes/board.js:41-48 | the nested loops give all items in board order, and the items of done; `Metrics.AllItems` and `Metrics.CompletedItems` are the reference lists |
| Metrics.ColumnSize | kanban/routes/board.js:55-56 | 0 when no column has the id; otherwise the size of the first column with that id, whichever position it holds |
| Metrics.TasksByColumn | kanban/routes/board.js:76-78 | every column id is a key, and no other string is |
| Metrics.TasksByColumnSizes | kanban/routes/board.js:76-78 | each key maps to the size of the last column with that id |
| Metrics.ColumnSizes | kanban/routes/board.js:76-78 | the loop builds exactly TasksByColumn |
| Metrics.CountAssigned | kanban/routes/board.js:81-85 | the count is at most the number of items |
| Metrics.CountUnassigned | kanban/routes/board.js:81-85 | the count is at most the number of items |
| Metrics.AssigneesPartition | kanban/routes/board.js:81-85 | the three buckets add up to the number of items |
| Metrics.AssigneeCounts | kanban/routes/board.js:81-85 | the loop's three counters are the bucket counts |
| Metrics.CycleTimes | kanban/routes/board.js:92-101 | there is at most one entry per completed item |
| Metrics.CycleTimesFromItems | kanban/routes/board.js:92-101 | items without both a todo and a done entry contribute nothing; each entry is its item's cycle time |
| Metrics.StageCount | kanban/routes/board.js:104-112 | at most one count per item |
| Metrics.StageCountCountsVisits | kanban/routes/board.js:104-112 | when every item visited a stage its count is the number of items, whatever time they spent there; when none did it is 0 |
| Metrics.AsWrittenCountIsLow | kanban/routes/board.js:106-111 | as written, two items with zero time in todo are counted once; `Metrics.StageAggregateAsWritten` is the source's falsy-reset aggregate |
| Metrics.UnseenStageTotal | kanban/routes/board.js:106-108 | a stage absent from the maps has total zero so far |
| Metrics.StageStep | kanban/routes/board.js:104-112 | one more item changes the aggregates of the stages it visited, and only those; `Metrics.StageTime` and `Metrics.StageTotal` are the reference times |
| Metrics.AddStage | kanban/routes/board.js:106-111 | one pass adds the item's time to its stage's total and one to its count, starting a stage not yet seen from zero (the intended reset; see Findings) |
| Metrics.AddItemStages | kanban/routes/board.js:104-112 | the inner loop folds one item's stage times into the maps, which stay the sums over the items so far |
| Metrics.StageAggregates | kanban/routes/board.js:92-112 | each stage's total and count are the sums over the completed items that visited it (the intended counts; see Findings) |
| Metrics.DoneOn | kanban/routes/board.js:115-118 | at most one count per item |
| Metrics.DoneOnStep | kanban/routes/board.js:115-118 | one more item adds one to its own day and nothing to other days; `Metrics.DoneDay` is the day of the first done entry |
| Metrics.Throughput | kanban/routes/board.js:114-119 | a day is a key exactly when some item was done on it, and its value is that number of items |
| Metrics.ThroughputCountsEachOnce | kanban/routes/board.js:114-119 | every item with a done entry counts on exactly one day |
| Metrics.RoundedAverage | kanban/routes/board.js:133 | `Math.round(total / count)`: the nearest integer, with halves rounded up |
| Metrics.CycleTimesOf | kanban/routes/board.js:92-101 | the loop gives exactly CycleTimes and their sum |
| Metrics.StageAverages | kanban/routes/board.js:131-137 | there is an entry exactly for the visited stages, with the rounded average and the count |
| Metrics.ComputeMetrics | kanban/routes/board.js:35-140 | the totals, column sizes, assignee buckets (which sum to the total), cycle times, per-stage counts and rounded average times, and throughput of the board |
| ClientUtils.ReplaceChar | kanban/public/js/utils.js:7-10 | a text without the character is unchanged |
| ClientUtils.ReplaceCharAppend | kanban/public/js/utils.js:7-10 | a global replace works piece by piece |
| ClientUtils.EscapeHtml | kanban/public/js/utils.js:4-11 | a falsy text gives the empty string |
| ClientUtils.EscapeChainAppend | kanban/public/js/utils.js:6-10 | the four chained replaces work piece by piece |
| ClientUtils.EscapeChainChar | kanban/public/js/utils.js:6-10 | on one character the chain gives that character's entity, so `&` first never double-escapes |
| ClientUtils.EscapeChainIsOnePass | kanban/public/js/utils.js:6-10 | the chained replaces equal one left-to-right escaping pass; `ClientUtils.EscapeChain` is the four chained replaces |
| ClientUtils.EscapeHtmlSafe | kanban/public/js/utils.js:4-11 | the escaped text is well escaped and unescapes to the input |
| ClientUtils.EscapePlainText | kanban/public/js/utils.js:4-11 | a text without special characters is its own escape |
| ClientUtils.HighlightNoMention | kanban/public/js/utils.js:16 | a text with no `@jimmy` or `@kenny` is left as it is |
| ClientUtils.EscapedPrefixCopied | kanban/public/js/utils.js:15-16 | an escaped text starts with the escaped first characters of its input |
| ClientUtils.EscapedMentionFromInput | kanban/public/js/utils.js:15-16 | a mention in the escaped text comes from a mention in the input |
| ClientUtils.EscapeKeepsNoMention | kanban/public/js/utils.js:15-16 | escaping creates no mention |
| ClientUtils.FormatWithoutMentions | kanban/public/js/utils.js:14-17 | without mentions, `formatMentions` is `escapeHtml` |
| ClientUtils.HighlightUnmark | kanban/public/js/utils.js:16 | removing the spans from a highlighted text without `<` gives the text back |
| ClientUtils.HighlightWrapsFirst | kanban/public/js/utils.js:16 | the first `@jimmy`/`@kenny` is wrapped in the mention span with its letters' case kept; the text before it is copied and `ClientUtils.Highlight` resumes after it |
| ClientUtils.FormatMentionsKeepsCase | kanban/public/js/utils.js:14-17 | `ClientUtils.FormatMentions` of `hi @Kenny` is `hi ` followed by the span around `@Kenny` |
| ClientUtils.FormatMentionsRoundTrip | kanban/public/js/utils.js:14-17 | removing the spans and then unescaping gives the original comment back |
| ClientTitle.KnownPrefixFrom | kanban/public/js/main.js:121-125 | the prefix found is a known one that the text starts with; none means no known prefix from there on matches |
| ClientTitle.EmptyPrefixStrips | kanban/public/js/main.js:119-127 | with no prefix, `Bug:` or `Feature:` is stripped with the whitespace after it, and other titles stay; this is `ClientTitle.NormalizeTitleWithPrefix` with the empty prefix |
| ClientTitle.PrefixApplied | kanban/public/js/main.js:129-136 | with a prefix the result starts with it, in each of the three cases; this is `ClientTitle.NormalizeTitleWithPrefix` with a prefix |
| ClientTitle.NormalizeIdempotent | kanban/public/js/main.js:117-137 | applying the same prefix twice is applying it once |
| ClientTitle.PrefixRemovedAgain | kanban/public/js/main.js:117-137 | adding a known prefix and switching back to Task gives the left-trimmed title |
| ClientTitle.TemplateFor | kanban/public/js/main.js:140 | known ids give their template; any other id falls back to task |
| ClientTitle.TemplateTitleStable | kanban/public/js/main.js:139-147 | a prefixed template starts the title with its prefix, and choosing it twice equals choosing it once; `ClientTitle.TemplateTitle` is the title the template gives |
| ClientState.ClientInheritedNameShowsThrough | kanban/public/js/state.js:36-38 | the written lookup shows `constructor` as `Object`; `ClientState.ClientUserNameAsWritten` is that lookup |
| ClientState.ClientUserName | kanban/public/js/state.js:28-38 | the five table users get their names, another non-empty id is shown as itself, and the empty id is Unknown |
| ClientState.ClientUserNameAgrees | kanban/public/js/state.js:36-38 | the written lookup and the own-property lookup agree on exactly the ids other than `constructor` |
| ClientState.Pushed | kanban/public/js/undo.js:7-11 | the pushed action is on top, and the stack stays within ten |
| ClientState.UndoRequest | kanban/public/js/undo.js:22-44 | a move is undone by moving back to its column and position as the current user; a delete is undone by recreating the item data |
| ClientState.PushedShape | kanban/public/js/undo.js:7-11 | below ten a push only appends; on a full stack it drops exactly the oldest entry |
| ClientState.FoundItem | kanban/public/js/state.js:66-73 | the found item carries the id |
| ClientState.FoundItemIsFirst | kanban/public/js/state.js:66-73 | an item is found exactly when one carries the id, and it is the first in board order |
| ClientState.ClientState.constructor | kanban/public/js/state.js:4-8 | no board, user kenny, nothing selected, archived done hidden, and an empty stack |
| ClientState.ClientState.SetBoardData | kanban/public/js/state.js:11-13 | sets the board and changes nothing else |
| ClientState.ClientState.SetCurrentUser | kanban/public/js/state.js:15-17 | sets the user and changes nothing else |
| ClientState.ClientState.SetSelectedItem | kanban/public/js/state.js:19-21 | sets the selection and changes nothing else |
| ClientState.ClientState.SetShowArchivedDone | kanban/public/js/state.js:23-25 | sets the flag and changes nothing else |
| ClientState.ClientState.FindItemById | kanban/public/js/state.js:66-73 | with no board, nothing; otherwise the first item with the id |
| ClientState.ClientState.PushUndo | kanban/public/js/undo.js:7-11 | the stack becomes Pushed of the old one, within ten, with nothing else changed |
| ClientState.ClientState.PerformUndo | kanban/public/js/undo.js:13-50 | an empty stack gives nothing to undo; otherwise the top action is popped and answered by its request, as the current user |
| ClientState.UndoAfterPush | kanban/public/js/undo.js:7-19 | undoing right after a push answers the pushed action, and leaves the stack as it was before the push (minus the oldest entry when the stack was full) |

## Left out

- File I/O is not modelled. Each document is a field of a class:
  - `readData`, `writeData`, `readEvents`, `writeEvents`, `readNotifications` and `writeNotifications` become field reads and assignments;
  - `backupCurrentData` is not part of this model.
- Clock and randomness:
  - The clock is the parameter `now`, in milliseconds. One value serves a whole request, where the source calls `new Date()` several times.
  - ISO timestamps are those milliseconds.
  - The throughput day key is the UTC day number `now / 86400000` rather than the date string.
- Data.UniqueId: `uniqueId` uses the current time and four random bytes. The model draws from a counter instead, so it does not capture that two ids may collide under concurrency.
- Concurrency is not modelled. Concurrent requests interleave their read-modify-write each on its own file, and handlers run atomically in the model.
- Stores are separate. The board, the events and the notifications are written to separate files; the model does not capture the failure of one write after another.
- Express plumbing is not modelled:
  - the router;
  - `validate()`, which runs the express-validator chains and collects their first errors into `details`;
  - `asyncHandler`;
  - server.js and app.js;
  - the express-validator built-ins (`isString`, `isLength`, `escape`, `isInt`, `toInt`).
- Validation model scope: Validation models only the application's own validators, which are the tags chain and the `assignee`/`blockedBy` chains, and their constant lists. Request bodies are assumed to have passed validation.
- Board.UpdateRequest: an update's keys are limited to the scalar fields in `Field` and `tags`. The source spreads any key of the body over the item; keys outside those fields are not modelled.
- Board.MoveRequest: `position` is an integer when present. Non-integer numbers, such as `1.5`, which `splice` truncates, are not modelled.
- Board.Engine.MoveItem: when the target column is unknown, the source pushes the item back to the end of its column in memory, then throws without writing. The model keeps the stored state unchanged, which is what persists.
- Metric statistics: the hour values (`cycleTimeHours`, `avgHours`, `avgCycleTimeHours`) and `avgCycleTime` are floating point, so they are left out; the report keeps the integer total `totalCycleTime` instead. `avgMs` is the exact rounding of the quotient.
- Metrics.ComputeMetrics: the extra `currentColumn` field of the gathered items is not modelled. The report is a function of the columns and `now`.
- Payload key names are not modelled. `title` versus `itemTitle`, and the notification payload field names, are the datatype's constructors.
- Client I/O is not modelled. The `fetch` calls, toasts and `refreshBoard` of `performUndo` become the returned `Request`, and fetch failures are not modelled.
- Client rendering is not modelled: the drag-and-drop, filters, rendering, theming and the settings routes.
- ClientTitle.TemplateFor: `ITEM_TEMPLATES[templateId]` also finds inherited properties, so `constructor` yields a function without a `titlePrefix`. The model treats every unknown id as `task`. The template description text is not modelled.
- ClientUtils.EscapeHtml: the input is a string, or null or undefined. `String(text)` of other values is not modelled.
- Text: `toLowerCase` is modelled on ASCII letters only. The whitespace set follows JavaScript's `trim`, with no Unicode normalisation.
- Validation.CheckUserField: the input is missing, `null` or a string. The sanitiser's `String(v)` coercion of other JSON values is not modelled: `["kenny"]` would be accepted as kenny, and `5` or `true` rejected with the field's message.
- Validation.CheckTags: the model stops at `SanitizerThrows` for a `tags` value that is no array. What then happens to the exception is not modelled: it escapes `validate()` as a rejected promise, and Express handles it outside the application.
- Metrics.AddStage: a stage's total and count restart only when the stage has no entry yet. The source also restarts a stage whose total so far is 0, which can lower its count (see Findings). The model keeps the intended count.
- Metrics.AddItemStages: uses AddStage, so it folds in the intended counts rather than the source's.
- Metrics.StageAggregates: gives the intended per-stage counts. The source's counts are `StageAggregateAsWritten`'s, which `AsWrittenCountIsLow` shows to differ.
- Metrics.ComputeMetrics: reports the intended per-stage counts and averages, taken from StageAggregates, not the source's lower counts.
- Board.NewItem: the `Created by` comment names the creator through the own-property lookup `Constants.GetUserName`. The source's lookup gives `Object` for `constructor` (see Findings), so `createdBy: "constructor"` reads `Created by constructor` here.
- BoardRules.MovedItem: the move comment uses the same own-property lookup, so `movedBy: "constructor"` reads `by constructor` where the source writes `by Object`.
- Board.Engine.CreateItem: the new item comes from NewItem, with its `Created by` text.
- Board.Engine.MoveItem: the moved item comes from MovedItem, with its move comment text.

## Findings

| source | as written | input that shows it | evidently intended | confidence | as-written member | corrected member |
|---|---|---|---|---|---|---|
| kanban/routes/board.js:106-111 | `if (!stageTimeTotals[stage])` resets both the running total and the count whenever the total so far is 0, so an item whose earlier visits all took zero time is dropped from the count | two completed items that each entered todo and done at time 0: the todo count comes out 1 instead of 2 | start a stage's total and count only when the stage is missing (`stage in stageTimeTotals`) | not executed | Metrics.AsWrittenCountIsLow | Metrics.StageCountCountsVisits |
| kanban/lib/constants.js:11-13 | `USERS[userId]?.name` also finds properties inherited from `Object.prototype` | `getUserName("constructor")` gives `"Object"` rather than `"constructor"` | look the id up among the table's own entries only | not executed | Constants.InheritedNameShowsThrough | Constants.GetUserNameAgrees |
| kanban/public/js/state.js:36-38 | the client's `getUserName` has the same inherited-property lookup | `getUserName("constructor")` gives `"Object"` | look the id up among the table's own entries only | not executed | ClientState.ClientInheritedNameShowsThrough | ClientState.ClientUserNameAgrees |
