/**
 * The admin notification bell: the list loaded from the `notifications` table (rows
 * for the admin role, newest first), the unread count and its badge, and marking
 * one notification as read.
 */
module Notifications {
  import opened Wrappers
  import opened Text
  import opened Seqs

  datatype NotificationRow = NotificationRow(id: string, userRole: string, title: string, message: string, link: string, isRead: bool)

  function ForAdmin(): NotificationRow -> bool {
    (n: NotificationRow) => n.userRole == "admin"
  }

  /** `.eq("user_role", "admin")`, in the table's (newest-first) order. */
  function AdminRows(table: seq<NotificationRow>): (r: seq<NotificationRow>)
    ensures forall n :: n in r <==> n in table && n.userRole == "admin"
    ensures IsSubsequence(r, table)
    ensures forall n :: multiset(r)[n] == if n.userRole == "admin" then multiset(table)[n] else 0
  {
    FilterIsSubsequence(table, ForAdmin());
    FilterMultisets(table, ForAdmin());
    Filter(table, ForAdmin())
  }

  predicate IsUnread(n: NotificationRow) {
    !n.isRead
  }

  /** `items.filter(n => !n.is_read).length`. */
  function Unread(items: seq<NotificationRow>): nat {
    Count(items, IsUnread)
  }

  /** `unread > 0 && <span>`: the red badge. */
  predicate ShowsBadge(items: seq<NotificationRow>) {
    Unread(items) > 0
  }

  /** The badge shows exactly when some notification is unread, and its number never exceeds the list's length. */
  lemma {:induction false} BadgeIffSomeUnread(items: seq<NotificationRow>)
    ensures ShowsBadge(items) <==> exists i :: 0 <= i < |items| && !items[i].isRead
    ensures Unread(items) <= |items|
  {
    if items != [] {
      BadgeIffSomeUnread(items[1..]);
      if !items[0].isRead {
        assert 0 <= 0 < |items| && !items[0].isRead;
      } else if exists i :: 0 <= i < |items[1..]| && !items[1..][i].isRead {
        var i :| 0 <= i < |items[1..]| && !items[1..][i].isRead;
        assert !items[i + 1].isRead;
      } else {
        forall i | 0 <= i < |items| ensures items[i].isRead {
          if i > 0 {
            assert items[i] == items[1..][i - 1];
          }
        }
      }
    }
  }

  /** One row after `update({ is_read: true }).eq("id", id)`. */
  function Marked(n: NotificationRow, id: string): NotificationRow {
    if n.id == id then n.(isRead := true) else n
  }

  /** `update({ is_read: true }).eq("id", id)` over the table. */
  function SetRead(rows: seq<NotificationRow>, id: string): (r: seq<NotificationRow>)
    ensures |r| == |rows|
  {
    if rows == [] then [] else [Marked(rows[0], id)] + SetRead(rows[1..], id)
  }

  /** The update sets `is_read` on exactly the rows with that id and leaves every other row and column alone. */
  lemma {:induction false} SetReadAt(rows: seq<NotificationRow>, id: string, i: nat)
    requires i < |rows|
    ensures SetRead(rows, id)[i] == if rows[i].id == id then rows[i].(isRead := true) else rows[i]
  {
    if i > 0 {
      SetReadAt(rows[1..], id, i - 1);
    }
  }

  /** Marking the same notification read twice is marking it once. */
  lemma {:induction false} SetReadIdempotent(rows: seq<NotificationRow>, id: string)
    ensures SetRead(SetRead(rows, id), id) == SetRead(rows, id)
  {
    if rows != [] {
      SetReadIdempotent(rows[1..], id);
    }
  }

  function UnreadWithId(id: string): NotificationRow -> bool {
    (n: NotificationRow) => n.id == id && !n.isRead
  }

  /** Marking one id read lowers the unread count by the number of unread rows with that id, and by nothing else. */
  lemma {:induction false} SetReadLowersUnread(rows: seq<NotificationRow>, id: string)
    ensures Unread(SetRead(rows, id)) == Unread(rows) - Count(rows, UnreadWithId(id))
  {
    if rows != [] {
      SetReadLowersUnread(rows[1..], id);
      assert SetRead(rows, id)[1..] == SetRead(rows[1..], id);
    }
  }

  /** A link without a target falls back to "#", so every entry links somewhere. */
  function Href(n: NotificationRow): (href: string)
    ensures href != ""
    ensures Truthy(n.link) ==> href == n.link
  {
    if Truthy(n.link) then n.link else "#"
  }

  /** The dropdown's placeholder appears exactly for an empty list. */
  function EmptyText(items: seq<NotificationRow>): (text: Option<string>)
    ensures text.Some? <==> |items| == 0
    ensures text.Some? ==> text.value == "No notifications"
  {
    if |items| == 0 then Some("No notifications") else None
  }

  /** The bell's state: the `notifications` table and the list last loaded from it. */
  class AdminNotifications {
    var table: seq<NotificationRow>
    var items: seq<NotificationRow>
    var open: bool

    constructor (table: seq<NotificationRow>)
      ensures this.table == table && items == [] && !open
    {
      this.table := table;
      items := [];
      open := false;
    }

    /** `loadNotifications`: a failed query keeps the current list; a successful one replaces it. */
    method LoadNotifications(queryOk: bool)
      modifies this
      ensures items == if queryOk then AdminRows(table) else old(items)
      ensures table == old(table) && open == old(open)
    {
      if queryOk {
        items := AdminRows(table);
      }
    }

    /** `markRead`: set `is_read` on that id (the update's result is not checked), then reload. */
    method MarkRead(id: string, updateOk: bool, reloadOk: bool)
      modifies this
      ensures table == if updateOk then SetRead(old(table), id) else old(table)
      ensures items == if reloadOk then AdminRows(table) else old(items)
      ensures open == old(open)
    {
      if updateOk {
        table := SetRead(table, id);
      }
      LoadNotifications(reloadOk);
    }

    /** The bell button. */
    method Toggle()
      modifies this
      ensures open == !old(open)
      ensures table == old(table) && items == old(items)
    {
      open := !open;
    }
  }

  /** Marking a notification read and reloading never raises the unread badge's number. */
  lemma MarkReadNeverRaisesUnread(table: seq<NotificationRow>, id: string)
    ensures Unread(AdminRows(SetRead(table, id))) <= Unread(AdminRows(table))
  {
    AdminRowsSetRead(table, id);
    SetReadLowersUnread(AdminRows(table), id);
  }

  /** Marking read commutes with selecting the admin rows (the role is not touched). */
  lemma AdminRowsSetRead(table: seq<NotificationRow>, id: string)
    ensures AdminRows(SetRead(table, id)) == SetRead(AdminRows(table), id)
  {
    FilterAdminSetRead(table, id);
  }

  lemma {:induction false} FilterAdminSetRead(table: seq<NotificationRow>, id: string)
    ensures Filter(SetRead(table, id), ForAdmin()) == SetRead(Filter(table, ForAdmin()), id)
  {
    if table != [] {
      FilterAdminSetRead(table[1..], id);
      var head := if table[0].userRole == "admin" then [table[0]] else [];
      SetReadAppend(head, Filter(table[1..], ForAdmin()), id);
    }
  }

  lemma {:induction false} SetReadAppend(a: seq<NotificationRow>, b: seq<NotificationRow>, id: string)
    ensures SetRead(a + b, id) == SetRead(a, id) + SetRead(b, id)
  {
    if a == [] {
      assert a + b == b;
    } else {
      SetReadAppend(a[1..], b, id);
      var rest := a[1..] + b;
      assert (a + b)[0] == a[0] && (a + b)[1..] == rest;
      var head := [Marked(a[0], id)];
      assert SetRead(a + b, id) == head + (SetRead(a[1..], id) + SetRead(b, id));
      assert head + (SetRead(a[1..], id) + SetRead(b, id)) == (head + SetRead(a[1..], id)) + SetRead(b, id);
    }
  }
}
