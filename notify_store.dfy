/**
 * The notification cache (src/stores/notifyStore.ts): the current actor's
 * notifications and the number of them still unread.
 */
module Notifications {
  import opened Wrappers
  import opened Api
  import Lists
  import Events

  const LoadFailed: string := "Failed to load notifications"

  /** A notification document as `listUserNotifications` returns it. */
  datatype NotificationDoc = NotificationDoc(id: string, recipient: string, subject: string,
                                             body: string, createdAt: string, unread: Scalar)

  /** The mapping of one document (notifyStore.ts:24-31); None when the date does not parse. */
  function FromDoc(doc: NotificationDoc, iso: Normaliser): (r: Option<NotificationItem>)
    ensures r.Some? <==> iso(doc.createdAt).Some?
    ensures r.Some? ==>
      && r.value.id == doc.id && r.value.recipient == doc.recipient
      && r.value.subject == doc.subject && r.value.body == doc.body
      && r.value.createdAt == iso(doc.createdAt).value
      && (r.value.unread <==> Truthy(doc.unread))
  {
    match iso(doc.createdAt)
    case Some(created) =>
      Some(NotificationItem(doc.id, doc.recipient, doc.subject, doc.body, created, Truthy(doc.unread)))
    case None => None
  }

  function DocMapper(iso: Normaliser): NotificationDoc -> Option<NotificationItem>
  {
    doc => FromDoc(doc, iso)
  }

  /** `filter(n => n.unread).length`. */
  function UnreadCount(ns: seq<NotificationItem>): (c: nat)
    ensures c <= |ns|
    ensures c == 0 <==> forall i :: 0 <= i < |ns| ==> !ns[i].unread
  {
    if |ns| == 0 then 0
    else (if ns[0].unread then 1 else 0) + UnreadCount(ns[1..])
  }

  /** `n.unread = false`. */
  function ReadPatch(): NotificationItem -> NotificationItem
  {
    (n: NotificationItem) => n.(unread := false)
  }

  /** markRead clears the flag and nothing else; clearing it twice is clearing it once. */
  lemma ReadPatchEffect(n: NotificationItem)
    ensures var p := ReadPatch()(n);
      !p.unread && p.(unread := n.unread) == n && ReadPatch()(p) == p
  {
  }

  function Bit(b: bool): nat { if b then 1 else 0 }

  /** Replacing one notification changes the count by the difference of the two flags. */
  lemma {:induction false} UnreadCountUpdate(ns: seq<NotificationItem>, i: nat, n: NotificationItem)
    requires i < |ns|
    ensures UnreadCount(ns[i := n]) + Bit(ns[i].unread) == UnreadCount(ns) + Bit(n.unread)
  {
    if i > 0 {
      assert ns[i := n][1..] == ns[1..][i - 1 := n];
      UnreadCountUpdate(ns[1..], i - 1, n);
    } else {
      assert ns[i := n][1..] == ns[1..];
    }
  }

  /** Marking a notification read lowers the unread count by one exactly when
      the first notification with that id was unread, and leaves it otherwise. */
  lemma MarkReadCount(ns: seq<NotificationItem>, id: string)
    ensures var found := Lists.IndexOf(ns, NotificationId, id);
      UnreadCount(Lists.PatchFirst(ns, NotificationId, id, ReadPatch()))
        == UnreadCount(ns) - (if found.Some? && ns[found.value].unread then 1 else 0)
  {
    var found := Lists.IndexOf(ns, NotificationId, id);
    var r := Lists.PatchFirst(ns, NotificationId, id, ReadPatch());
    if found.Some? {
      var i := found.value;
      assert r == ns[i := ReadPatch()(ns[i])];
      UnreadCountUpdate(ns, i, ReadPatch()(ns[i]));
    }
  }

  /** Marking the same notification read twice is marking it once. */
  lemma MarkReadIdempotent(ns: seq<NotificationItem>, id: string)
    ensures var once := Lists.PatchFirst(ns, NotificationId, id, ReadPatch());
      Lists.PatchFirst(once, NotificationId, id, ReadPatch()) == once
  {
    Lists.PatchFirstIdempotent(ns, NotificationId, id, ReadPatch());
  }

  /** Deleting notifications never raises the unread count. */
  lemma {:induction false} DeleteLowersCount(ns: seq<NotificationItem>, id: string)
    ensures UnreadCount(Lists.Without(ns, NotificationId, id)) <= UnreadCount(ns)
  {
    if |ns| > 0 {
      DeleteLowersCount(ns[1..], id);
      assert Lists.Without(ns, NotificationId, id)
        == (if ns[0].id == id then [] else [ns[0]]) + Lists.Without(ns[1..], NotificationId, id);
      var rest := Lists.Without(ns[1..], NotificationId, id);
      if ns[0].id != id {
        assert ([ns[0]] + rest)[1..] == rest;
      }
    }
  }

  class NotifyStore {
    var notifications: seq<NotificationItem>
    var loading: bool
    var error: Option<string>

    constructor()
      ensures notifications == [] && !loading && error == None
    {
      notifications, loading, error := [], false, None;
    }

    /** `unreadCount`: how many cached notifications are unread. */
    function Unread(): (c: nat)
      reads this
      ensures c <= |notifications|
    {
      UnreadCount(notifications)
    }

    /** refresh: asks for the actor's notifications (all, or only the unread
        ones) and replaces the list. */
    method Refresh(events: Events.EventStore, onlyUnread: bool,
                   reply: ApiResponse<seq<NotificationDoc>>, iso: Normaliser)
      returns (sent: seq<Call>)
      modifies this`notifications, this`loading, this`error
      ensures sent == [ListUserNotifications(events.currentActor, onlyUnread)] && AllBy(sent, events.currentActor)
      ensures !loading && (notifications, error) == Lists.Reload(old(notifications), reply, DocMapper(iso), LoadFailed)
    {
      loading, error := true, None;
      sent := [ListUserNotifications(events.currentActor, onlyUnread)];
      if reply.Failure? {
        error, loading := Some(reply.message), false;
        return;
      }
      var mapped := Lists.MapAll(reply.value, DocMapper(iso));
      if mapped.None? {
        error := Some(LoadFailed);
      } else {
        notifications := mapped.value;
      }
      loading := false;
    }

    /** markRead: on success the first cached notification with that id is
        marked read; nothing else changes. */
    method MarkRead(events: Events.EventStore, notificationId: string, reply: ApiResponse<()>)
      returns (sent: seq<Call>)
      modifies this`notifications, this`error
      ensures sent == [Call.MarkRead(notificationId, events.currentActor)] && AllBy(sent, events.currentActor)
      ensures reply.Failure? ==> error == Some(reply.message) && notifications == old(notifications)
      ensures reply.Data? ==>
        && error == old(error)
        && notifications == Lists.PatchFirst(old(notifications), NotificationId, notificationId, ReadPatch())
        && Unread() <= old(Unread())
    {
      sent := [Call.MarkRead(notificationId, events.currentActor)];
      if reply.Failure? {
        error := Some(reply.message);
      } else {
        var marked := Lists.PatchFirst(notifications, NotificationId, notificationId, ReadPatch());
        MarkReadCount(notifications, notificationId);
        assert UnreadCount(marked) <= Unread();
        notifications := marked;
      }
    }

    /** deleteNotification: on success every cached notification with that id is dropped. */
    method DeleteNotification(events: Events.EventStore, notificationId: string, reply: ApiResponse<()>)
      returns (sent: seq<Call>)
      modifies this`notifications, this`error
      ensures sent == [Call.DeleteNotification(notificationId, events.currentActor)] && AllBy(sent, events.currentActor)
      ensures reply.Failure? ==> error == Some(reply.message) && notifications == old(notifications)
      ensures reply.Data? ==>
        && error == old(error)
        && notifications == Lists.Without(old(notifications), NotificationId, notificationId)
        && Unread() <= old(Unread())
    {
      sent := [Call.DeleteNotification(notificationId, events.currentActor)];
      if reply.Failure? {
        error := Some(reply.message);
      } else {
        var kept := Lists.Without(notifications, NotificationId, notificationId);
        DeleteLowersCount(notifications, notificationId);
        assert UnreadCount(kept) <= Unread();
        notifications := kept;
      }
    }
  }
}
