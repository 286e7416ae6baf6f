/**
 * The notification store (`stores/notifications.ts`): marking notifications
 * read and counting the unread ones.
 */
module Notifications {
  import opened Seqs

  datatype NotificationKind = Like | Comment | Follow

  datatype Notification = Notification(
    id: string,
    kind: NotificationKind,
    actor: string,
    message: string,
    createdAt: string,
    read: bool)

  function IsUnread(n: Notification): bool {
    !n.read
  }

  function IsUnreadWithId(id: string): Notification -> bool {
    (n: Notification) => !n.read && n.id == id
  }

  /** The list after `markNotificationRead(id)`. */
  function MarkedRead(items: seq<Notification>, id: string): (r: seq<Notification>)
    ensures |r| == |items|
    ensures forall i :: 0 <= i < |items| && items[i].id == id ==> r[i] == items[i].(read := true)
    ensures forall i :: 0 <= i < |items| && items[i].id != id ==> r[i] == items[i]
  {
    seq(|items|, i requires 0 <= i < |items| =>
      if items[i].id == id then items[i].(read := true) else items[i])
  }

  /** Marking the same id read twice is the same as marking it once. */
  lemma MarkReadIdempotent(items: seq<Notification>, id: string)
    ensures MarkedRead(MarkedRead(items, id), id) == MarkedRead(items, id)
  {
  }

  /** `unreadCount`: the number of notifications that are not read. */
  function UnreadCount(items: seq<Notification>): (n: nat)
    ensures n == Count(items, IsUnread)
  {
    |Filter(items, IsUnread)|
  }

  /** Marking `id` read lowers the unread count by the number of unread notifications with that id. */
  lemma {:induction false} UnreadAfterMark(items: seq<Notification>, id: string)
    ensures UnreadCount(MarkedRead(items, id)) == UnreadCount(items) - Count(items, IsUnreadWithId(id))
  {
    if items != [] {
      var r := MarkedRead(items, id);
      assert r[1..] == MarkedRead(items[1..], id);
      UnreadAfterMark(items[1..], id);
    }
  }

  /** The `notificationsStore` atom. */
  class NotificationStore {
    var notifications: seq<Notification>

    constructor ()
      ensures notifications == []
    {
      notifications := [];
    }

    method MarkNotificationRead(id: string)
      modifies this
      ensures notifications == MarkedRead(old(notifications), id)
    {
      notifications := MarkedRead(notifications, id);
    }
  }
}
