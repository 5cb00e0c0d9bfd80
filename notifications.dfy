/** The notification inbox of src/pages/NotificationsPage.tsx. The page holds
    the signed-in user's notifications, newest first, and replaces that list
    after each operation; every operation also returns the writes it sends
    to the store. `created_at` is kept as a pre-parsed timestamp. */
module Notifications {
  import opened Collections
  import opened Session
  import Sorting

  datatype Notification = Notification(
    id: string, userId: string, kind: string, title: string, message: string,
    link: string, isRead: string, createdAt: int, relatedId: string)

  /** `is_read === 'false'`. */
  predicate IsUnread(n: Notification)
  {
    n.isRead == "false"
  }

  /** `is_read === 'true'`. */
  predicate IsRead(n: Notification)
  {
    n.isRead == "true"
  }

  function SetRead(n: Notification): Notification
  {
    n.(isRead := "true")
  }

  // ---------------------------------------------------------------------
  // Loading

  /** The loaded notifications addressed to the viewer; nothing without a
      viewer, since no `user_id` equals an absent uid. */
  function ForUser(all: seq<Notification>, viewer: Option<User>): (r: seq<Notification>)
    ensures forall n :: n in r <==> n in all && viewer.Some? && n.userId == viewer.value.uid
  {
    Filter(all, (n: Notification) => viewer.Some? && n.userId == viewer.value.uid)
  }

  /** The comparator `b.created_at - a.created_at`: newest first. */
  predicate NewerFirst(a: Notification, b: Notification)
  {
    a.createdAt >= b.createdAt
  }

  lemma NewerFirstIsTotalPreorder()
    ensures Sorting.TotalPreorder(NewerFirst)
  {
  }

  /** The list `loadNotifications` installs: the viewer's notifications,
      newest first. */
  function LoadedInbox(all: seq<Notification>, viewer: Option<User>): (r: seq<Notification>)
    ensures multiset(r) == multiset(ForUser(all, viewer))
    ensures forall i, j :: 0 <= i < j < |r| ==> r[i].createdAt >= r[j].createdAt
  {
    NewerFirstIsTotalPreorder();
    Sorting.SortBy(ForUser(all, viewer), NewerFirst)
  }

  /** A list the page can hold: newest first, and all for one recipient. */
  ghost predicate WellFormed(items: seq<Notification>)
  {
    && Sorting.SortedBy(items, NewerFirst)
    && forall i, j :: 0 <= i < |items| && 0 <= j < |items| ==> items[i].userId == items[j].userId
  }

  /** A freshly loaded inbox is well formed and holds exactly the viewer's
      notifications. */
  lemma {:induction false} LoadedInboxWellFormed(all: seq<Notification>, viewer: Option<User>)
    ensures WellFormed(LoadedInbox(all, viewer))
    ensures forall n :: n in LoadedInbox(all, viewer) <==> n in all && viewer.Some? && n.userId == viewer.value.uid
  {
    var r := LoadedInbox(all, viewer);
    forall n ensures n in r <==> n in ForUser(all, viewer) {
      assert n in r <==> n in multiset(r);
      assert n in ForUser(all, viewer) <==> n in multiset(ForUser(all, viewer));
    }
    forall i, j | 0 <= i < |r| && 0 <= j < |r| ensures r[i].userId == r[j].userId {
      assert r[i] in r && r[j] in r;
    }
  }

  // ---------------------------------------------------------------------
  // The list transformations

  /** The list after `markAsRead(id)`. */
  function MarkRead(items: seq<Notification>, id: string): (r: seq<Notification>)
    ensures |r| == |items|
    ensures forall i :: 0 <= i < |items| && items[i].id == id ==> r[i] == SetRead(items[i])
    ensures forall i :: 0 <= i < |items| && items[i].id != id ==> r[i] == items[i]
  {
    Map(items, (n: Notification) => if n.id == id then SetRead(n) else n)
  }

  /** An id that names no item changes nothing. */
  lemma MarkReadUnknownId(items: seq<Notification>, id: string)
    requires forall n :: n in items ==> n.id != id
    ensures MarkRead(items, id) == items
  {
    var r := MarkRead(items, id);
    forall i | 0 <= i < |items| ensures r[i] == items[i] {
      assert items[i] in items;
    }
  }

  /** Marking the same item twice is marking it once. */
  lemma MarkReadIdempotent(items: seq<Notification>, id: string)
    ensures MarkRead(MarkRead(items, id), id) == MarkRead(items, id)
  {
  }

  /** The unread count drops by the number of unread items carrying `id`. */
  lemma {:induction false} MarkReadUnreadCount(items: seq<Notification>, id: string)
    ensures UnreadCount(MarkRead(items, id)) + Count(items, (n: Notification) => n.id == id && IsUnread(n))
         == UnreadCount(items)
  {
    if items != [] {
      MarkReadUnreadCount(items[1..], id);
      assert MarkRead(items, id)[1..] == MarkRead(items[1..], id);
    }
  }

  /** The list after `markAllAsRead`. */
  function MarkAllRead(items: seq<Notification>): (r: seq<Notification>)
    ensures |r| == |items|
    ensures forall i :: 0 <= i < |items| ==> r[i] == SetRead(items[i])
  {
    Map(items, SetRead)
  }

  /** After marking all as read nothing is unread, and each item differs from
      before only in its read flag. */
  lemma MarkAllReadClearsUnread(items: seq<Notification>)
    ensures UnreadCount(MarkAllRead(items)) == 0
    ensures forall n :: n in MarkAllRead(items) ==> IsRead(n)
  {
    var r := MarkAllRead(items);
    forall n | n in r ensures IsRead(n) {
      var i :| 0 <= i < |r| && r[i] == n;
    }
    FilterNone(r, IsUnread);
  }

  /** The list after `deleteNotification(id)`. */
  function Without(items: seq<Notification>, id: string): (r: seq<Notification>)
    ensures forall n :: n in r <==> n in items && n.id != id
  {
    Filter(items, (n: Notification) => n.id != id)
  }

  /** Deleting removes exactly the items carrying the id: the rest keep
      their order, and the sizes add up. */
  lemma {:induction false} WithoutCounts(items: seq<Notification>, id: string)
    ensures |Without(items, id)| + Count(items, (n: Notification) => n.id == id) == |items|
  {
    if items != [] {
      WithoutCounts(items[1..], id);
    }
  }

  /** The list after `deleteAllRead`: the items whose flag is `'false'`. */
  function KeepUnread(items: seq<Notification>): (r: seq<Notification>)
    ensures forall n :: n in r <==> n in items && IsUnread(n)
  {
    Filter(items, IsUnread)
  }

  /** The deletes that `deleteAllRead` sends: the items whose flag is
      `'true'`. */
  function ReadItems(items: seq<Notification>): (r: seq<Notification>)
    ensures forall n :: n in r <==> n in items && IsRead(n)
  {
    Filter(items, IsRead)
  }

  /** While every flag is `'true'` or `'false'`, the items deleted and the
      items kept make up the whole list, and the unread count is unchanged. */
  lemma {:induction false} DeleteAllReadPartition(items: seq<Notification>)
    requires forall n :: n in items ==> n.isRead == "true" || n.isRead == "false"
    ensures |ReadItems(items)| + |KeepUnread(items)| == |items|
    ensures UnreadCount(KeepUnread(items)) == UnreadCount(items)
  {
    if items != [] {
      assert forall n :: n in items[1..] ==> n in items;
      DeleteAllReadPartition(items[1..]);
      assert items[0] in items;
    }
    FilterAll(KeepUnread(items), IsUnread);
  }

  /** `filteredNotifications` for the `'all'` / `'unread'` tab. */
  function Visible(items: seq<Notification>, tab: string): (r: seq<Notification>)
    ensures tab == "unread" ==> forall n :: n in r <==> n in items && IsUnread(n)
    ensures tab != "unread" ==> r == items
  {
    if tab == "unread" then KeepUnread(items) else items
  }

  /** `unreadCount`. */
  function UnreadCount(items: seq<Notification>): (n: nat)
    ensures n <= |items|
  {
    Count(items, IsUnread)
  }

  /** The badge on the unread tab counts what that tab shows. */
  lemma UnreadCountIsUnreadTab(items: seq<Notification>)
    ensures UnreadCount(items) == |Visible(items, "unread")|
  {
  }

  /** Each transformation keeps a well-formed list well formed. */
  lemma TransformationsKeepWellFormed(items: seq<Notification>, id: string)
    requires WellFormed(items)
    ensures WellFormed(MarkRead(items, id))
    ensures WellFormed(MarkAllRead(items))
    ensures WellFormed(Without(items, id))
    ensures WellFormed(KeepUnread(items))
  {
    Sorting.FilterKeepsSorted(items, (n: Notification) => n.id != id, NewerFirst);
    Sorting.FilterKeepsSorted(items, IsUnread, NewerFirst);
    SameRecipient(Without(items, id), items);
    SameRecipient(KeepUnread(items), items);
  }

  lemma SameRecipient(sub: seq<Notification>, items: seq<Notification>)
    requires forall n :: n in sub ==> n in items
    requires forall i, j :: 0 <= i < |items| && 0 <= j < |items| ==> items[i].userId == items[j].userId
    ensures forall i, j :: 0 <= i < |sub| && 0 <= j < |sub| ==> sub[i].userId == sub[j].userId
  {
    forall i, j | 0 <= i < |sub| && 0 <= j < |sub| ensures sub[i].userId == sub[j].userId {
      assert sub[i] in items && sub[j] in items;
      var k :| 0 <= k < |items| && items[k] == sub[i];
      var l :| 0 <= l < |items| && items[l] == sub[j];
    }
  }

  // ---------------------------------------------------------------------
  // The page

  class Inbox {
    /** `notifications`, the list the page renders. */
    var items: seq<Notification>

    ghost predicate Valid()
      reads this
    {
      WellFormed(items)
    }

    constructor ()
      ensures Valid() && items == []
    {
      items := [];
    }

    /** `loadNotifications`, given what the store returned. */
    method Load(all: seq<Notification>, viewer: Option<User>)
      modifies this
      ensures Valid()
      ensures items == LoadedInbox(all, viewer)
    {
      items := LoadedInbox(all, viewer);
      LoadedInboxWellFormed(all, viewer);
    }

    /** `markAsRead(id)`: one update for the item with that id, then the
        list with that item read; nothing for an unknown id. */
    method MarkAsRead(id: string) returns (write: Option<Notification>)
      requires Valid()
      modifies this
      ensures Valid()
      ensures write.None? <==> forall n :: n in old(items) ==> n.id != id
      ensures write.Some? ==>
        write.value.id == id && IsRead(write.value) && exists n :: n in old(items) && write.value == SetRead(n)
      ensures write.Some? ==>
        exists i :: 0 <= i < |old(items)| && old(items)[i].id == id && write.value == SetRead(old(items)[i])
          && forall j :: 0 <= j < i ==> old(items)[j].id != id
      ensures items == MarkRead(old(items), id)
    {
      var found := Find(items, (n: Notification) => n.id == id);
      if found.None? {
        MarkReadUnknownId(items, id);
        return None;
      }
      write := Some(SetRead(found.value));
      TransformationsKeepWellFormed(items, id);
      items := MarkRead(items, id);
    }

    /** `markAllAsRead`: one update per unread item, then every item read. */
    method MarkAllAsRead() returns (writes: seq<Notification>)
      requires Valid()
      modifies this
      ensures Valid()
      ensures writes == Map(KeepUnread(old(items)), SetRead)
      ensures items == MarkAllRead(old(items))
      ensures UnreadCount(items) == 0
    {
      writes := Map(KeepUnread(items), SetRead);
      TransformationsKeepWellFormed(items, "");
      MarkAllReadClearsUnread(items);
      items := MarkAllRead(items);
    }

    /** `deleteNotification(id)`: one delete for the item with that id, then
        the list without it; nothing for an unknown id. */
    method DeleteNotification(id: string) returns (deleted: Option<Notification>)
      requires Valid()
      modifies this
      ensures Valid()
      ensures deleted.None? <==> forall n :: n in old(items) ==> n.id != id
      ensures deleted.Some? ==> deleted.value in old(items) && deleted.value.id == id
      ensures deleted.Some? ==> items == Without(old(items), id)
      ensures deleted.None? ==> items == old(items)
    {
      deleted := Find(items, (n: Notification) => n.id == id);
      if deleted.Some? {
        TransformationsKeepWellFormed(items, id);
        items := Without(items, id);
      }
    }

    /** `deleteAllRead`: one delete per read item, then the unread items. */
    method DeleteAllRead() returns (deletes: seq<Notification>)
      requires Valid()
      modifies this
      ensures Valid()
      ensures deletes == ReadItems(old(items))
      ensures items == KeepUnread(old(items))
      ensures UnreadCount(items) == |items|
    {
      deletes := ReadItems(items);
      TransformationsKeepWellFormed(items, "");
      items := KeepUnread(items);
      FilterAll(items, IsUnread);
    }

    /** `handleNotificationClick`: an unread notification is marked read
        first; a read one is not written again. The link, when there is one,
        is where the page navigates. */
    method Click(n: Notification) returns (write: Option<Notification>, navigateTo: Option<string>)
      requires Valid()
      modifies this
      ensures Valid()
      ensures !IsUnread(n) ==> write.None? && items == old(items)
      ensures IsUnread(n) ==> items == MarkRead(old(items), n.id)
      ensures write.None? <==> !IsUnread(n) || forall m :: m in old(items) ==> m.id != n.id
      ensures write.Some? ==> IsUnread(n) && write.value.id == n.id && IsRead(write.value)
      ensures write.Some? ==>
        exists i :: 0 <= i < |old(items)| && old(items)[i].id == n.id && write.value == SetRead(old(items)[i])
          && forall j :: 0 <= j < i ==> old(items)[j].id != n.id
      ensures navigateTo.Some? <==> n.link != ""
      ensures navigateTo.Some? ==> navigateTo.value == n.link
    {
      write := None;
      if IsUnread(n) {
        write := MarkAsRead(n.id);
      }
      navigateTo := if n.link != "" then Some(n.link) else None;
    }
  }
}
