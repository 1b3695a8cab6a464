/**
 * The notification list: the append of kanban/lib/notifications.js and the list,
 * delete-by-id and clear-all routes of kanban/routes/notifications.js.
 */
module Notifications {
  import opened Wrappers
  import opened BoardTypes
  import Data
  import Errors

  /** The notification types the board handlers raise. */
  datatype NotificationType =
    | AssignedToKenny | BlockedByKenny | JimmyCompleted | MovedToReview | MentionAgent | KennyComment
  {
    function Name(): string {
      match this
      case AssignedToKenny => "assigned_to_kenny"
      case BlockedByKenny => "blocked_by_kenny"
      case JimmyCompleted => "jimmy_completed"
      case MovedToReview => "moved_to_review"
      case MentionAgent => "mention_agent"
      case KennyComment => "kenny_comment"
    }
  }

  /** The payload shapes; every one names the item and its title. */
  datatype NotificationPayload =
    | ItemAlert(itemId: string, itemTitle: JsStr)
    | ReviewAlert(itemId: string, itemNumber: nat, itemTitle: JsStr, movedBy: string)
    | MentionAlert(itemId: string, itemNumber: nat, itemTitle: JsStr, commentId: string, commentText: string,
                   commentedAt: int, author: JsStr, targetAgent: string)
    | CommentAlert(itemId: string, itemTitle: JsStr, commentId: string, commentText: string, commentedAt: int)

  datatype Notification = Notification(id: string, notificationType: NotificationType, payload: NotificationPayload, createdAt: int)

  /** A notification as a handler asks for it: the arguments of one `addNotification(type, payload)` call. */
  datatype Alert = Alert(notificationType: NotificationType, payload: NotificationPayload)

  /** The notifications a run of `addNotification` calls appends: consecutive ids, one timestamp. */
  function Stamped(alerts: seq<Alert>, serial: nat, now: int): (r: seq<Notification>)
    ensures |r| == |alerts|
  {
    if alerts == [] then []
    else
      var a := alerts[|alerts| - 1];
      Stamped(alerts[..|alerts| - 1], serial, now) + [Notification(Data.UniqueId("notif", serial + |alerts| - 1), a.notificationType, a.payload, now)]
  }

  /** The k-th appended entry carries the k-th id after the counter. */
  lemma {:induction false} StampedAt(alerts: seq<Alert>, serial: nat, now: int)
    ensures forall k :: 0 <= k < |alerts| ==> Stamped(alerts, serial, now)[k] == Notification(Data.UniqueId("notif", serial + k), alerts[k].notificationType, alerts[k].payload, now)
  {
    if alerts != [] {
      StampedAt(alerts[..|alerts| - 1], serial, now);
    }
  }

  /** One more call extends the run by its notification. */
  lemma StampedStep(alerts: seq<Alert>, a: Alert, serial: nat, now: int)
    ensures Stamped(alerts + [a], serial, now)
         == Stamped(alerts, serial, now) + [Notification(Data.UniqueId("notif", serial + |alerts|), a.notificationType, a.payload, now)]
  {
  }

  /** `readNotifications()`: an unreadable or missing file reads as an empty list. */
  function ReadNotifications(file: Option<seq<Notification>>): (list: seq<Notification>)
    ensures file.None? ==> list == []
    ensures file.Some? ==> list == file.value
  {
    if file.Some? then file.value else []
  }

  /** `findIndex(n => n.id === id)`. */
  function IndexOfNotification(list: seq<Notification>, id: string): (r: Option<nat>)
    ensures r.Some? ==> r.value < |list| && list[r.value].id == id
    ensures r.Some? ==> forall j :: 0 <= j < r.value ==> list[j].id != id
    ensures r.None? ==> forall j :: 0 <= j < |list| ==> list[j].id != id
  {
    if list == [] then None
    else if list[0].id == id then Some(0)
    else match IndexOfNotification(list[1..], id)
      case None => None
      case Some(k) => Some(k + 1)
  }

  /** Removing one entry removes exactly it: nothing else is lost or added. */
  lemma RemoveAtIsRemoval(list: seq<Notification>, i: nat)
    requires i < |list|
    ensures multiset(RemoveAt(list, i)) == multiset(list) - multiset{list[i]}
  {
    assert list == list[..i] + [list[i]] + list[i + 1..];
  }

  /** The notifications file and the counter fresh notification ids are drawn from. */
  class NotificationStore {
    var file: Option<seq<Notification>>
    var serial: nat

    function Notifications(): seq<Notification>
      reads this
    {
      ReadNotifications(file)
    }

    constructor(stored: Option<seq<Notification>>)
      ensures file == stored && serial == 0
    {
      file := stored;
      serial := 0;
    }

    /** `addNotification(type, payload)`: read, push one stamped entry, write. */
    method AddNotification(notificationType: NotificationType, payload: NotificationPayload, now: int)
      modifies this
      ensures file == Some(old(Notifications()) + [Notification(Data.UniqueId("notif", old(serial)), notificationType, payload, now)])
      ensures serial == old(serial) + 1
      ensures |Notifications()| == |old(Notifications())| + 1
      ensures Notifications()[..|old(Notifications())|] == old(Notifications())
    {
      var list := ReadNotifications(file);
      list := list + [Notification(Data.UniqueId("notif", serial), notificationType, payload, now)];
      serial := serial + 1;
      file := Some(list);
    }

    /** `GET /notifications`: the stored list as it is. */
    method List() returns (list: seq<Notification>)
      ensures list == Notifications()
    {
      list := ReadNotifications(file);
    }

    /**
     * `DELETE /notifications/:id`: removes and returns the first entry with the id, or
     * fails with NotFound and writes nothing.
     */
    method DeleteById(id: string) returns (r: Result<Notification, Errors.AppError>)
      modifies this
      ensures serial == old(serial)
      ensures match IndexOfNotification(old(Notifications()), id)
        case None =>
          && r == Failure(Errors.NotFound(Some("Notification")))
          && file == old(file)
        case Some(i) =>
          && r == Success(old(Notifications())[i])
          && file == Some(RemoveAt(old(Notifications()), i))
    {
      var list := ReadNotifications(file);
      var index := IndexOfNotification(list, id);
      if index.Some? {
        var removed := list[index.value];
        file := Some(RemoveAt(list, index.value));
        return Success(removed);
      }
      return Failure(Errors.NotFound(Some("Notification")));
    }

    /** `DELETE /notifications`: writes an empty list. */
    method ClearAll()
      modifies this
      ensures file == Some([]) && Notifications() == []
      ensures serial == old(serial)
    {
      file := Some([]);
    }
  }
}
