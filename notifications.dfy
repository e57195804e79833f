/**
 * The notification hook of a signed-in user: the list of notifications, the
 * unread counter shown beside it, and the handlers that fetch, mark as
 * read, create and receive notifications.
 */
module Notifications {
  import opened Common

  datatype Kind = Info | Success | Warning | Error

  datatype Notification = Notification(id: Id, title: string, message: string, kind: Kind, read: bool, createdAt: string)

  /** The number of notifications not yet read. */
  function Unread(ns: seq<Notification>): nat
    decreases |ns|
  {
    if |ns| == 0 then 0 else (if ns[0].read then 0 else 1) + Unread(ns[1..])
  }

  /** `prev.map(n => n.id === id ? { ...n, read: true } : n)`. */
  function MarkRead(ns: seq<Notification>, id: Id): (r: seq<Notification>)
    ensures |r| == |ns|
    ensures forall i :: 0 <= i < |ns| ==> r[i] == if ns[i].id == id then ns[i].(read := true) else ns[i]
  {
    seq(|ns|, i requires 0 <= i < |ns| => if ns[i].id == id then ns[i].(read := true) else ns[i])
  }

  /** `prev.map(n => ({ ...n, read: true }))`. */
  function MarkAllRead(ns: seq<Notification>): (r: seq<Notification>)
    ensures |r| == |ns|
    ensures forall i :: 0 <= i < |ns| ==> r[i] == ns[i].(read := true)
  {
    seq(|ns|, i requires 0 <= i < |ns| => ns[i].(read := true))
  }

  /** No two notifications share an id. */
  predicate DistinctIds(ns: seq<Notification>) {
    forall i, j :: 0 <= i < j < |ns| ==> ns[i].id != ns[j].id
  }

  /** A list where every notification is read has nothing unread. */
  lemma {:induction false} AllReadNothingUnread(ns: seq<Notification>)
    requires forall i :: 0 <= i < |ns| ==> ns[i].read
    ensures Unread(ns) == 0
    decreases |ns|
  {
    if |ns| > 0 {
      AllReadNothingUnread(ns[1..]);
    }
  }

  /**
   * Marking one id as read lowers the unread number by one exactly when a
   * single unread notification has that id, and leaves it as it is when
   * none has.
   */
  lemma {:induction false} UnreadAfterMarkRead(ns: seq<Notification>, id: Id)
    requires DistinctIds(ns)
    ensures (exists i :: 0 <= i < |ns| && ns[i].id == id && !ns[i].read) ==>
      Unread(MarkRead(ns, id)) == Unread(ns) - 1
    ensures (forall i :: 0 <= i < |ns| && ns[i].id == id ==> ns[i].read) ==>
      Unread(MarkRead(ns, id)) == Unread(ns)
    decreases |ns|
  {
    if |ns| > 0 {
      var tail := ns[1..];
      assert DistinctIds(tail) by {
        forall i, j | 0 <= i < j < |tail| ensures tail[i].id != tail[j].id {
          assert tail[i] == ns[i + 1] && tail[j] == ns[j + 1];
        }
      }
      UnreadAfterMarkRead(tail, id);
      assert MarkRead(ns, id)[1..] == MarkRead(tail, id);
      if ns[0].id == id {
        assert forall i :: 0 <= i < |tail| ==> tail[i].id != id by {
          forall i | 0 <= i < |tail| ensures tail[i].id != id {
            assert tail[i] == ns[i + 1];
          }
        }
        assert forall i :: 0 <= i < |tail| ==> MarkRead(tail, id)[i] == tail[i];
        assert MarkRead(tail, id) == tail;
      } else {
        if exists i :: 0 <= i < |ns| && ns[i].id == id && !ns[i].read {
          var i :| 0 <= i < |ns| && ns[i].id == id && !ns[i].read;
          assert tail[i - 1] == ns[i];
        }
        if forall i :: 0 <= i < |ns| && ns[i].id == id ==> ns[i].read {
          assert forall i :: 0 <= i < |tail| && tail[i].id == id ==> tail[i].read by {
            forall i | 0 <= i < |tail| && tail[i].id == id ensures tail[i].read {
              assert tail[i] == ns[i + 1];
            }
          }
        }
      }
    }
  }

  /**
   * Marking an already read notification still lowers the counter: with
   * one unread and one read notification the counter is 1; marking the
   * read one leaves one unread notification under a counter of 0.
   */
  lemma CounterDriftsOnReadTarget()
    ensures var ns := [Notification("a", "", "", Info, false, ""), Notification("b", "", "", Info, true, "")];
      Unread(ns) == 1 && Unread(MarkRead(ns, "b")) == 1 && DistinctIds(ns)
  {
    var ns := [Notification("a", "", "", Info, false, ""), Notification("b", "", "", Info, true, "")];
    assert MarkRead(ns, "b") == ns;
  }

  /** `user?.id` is truthy: there is a user, and its id is not the empty string. */
  predicate SignedIn(user: Option<Id>)
  {
    user.Some? && user.value != ""
  }

  class Hook {
    /** The id of the signed-in user, if any; an empty id counts as no user. */
    var userId: Option<Id>
    var notifications: seq<Notification>
    var unreadCount: int
    var loading: bool

    /** The counter is never negative. */
    ghost predicate Valid()
      reads this
    {
      unreadCount >= 0
    }

    /** The counter agrees with the list. */
    ghost predicate Consistent()
      reads this
    {
      unreadCount == Unread(notifications)
    }

    constructor (user: Option<Id>)
      ensures Valid() && Consistent()
      ensures userId == user && notifications == [] && unreadCount == 0 && loading
    {
      userId := user;
      notifications := [];
      unreadCount := 0;
      loading := true;
    }

    /**
     * `fetchNotifications` with the query's answer (`None` for an error):
     * without a user nothing happens; otherwise the list is replaced and
     * the counter recomputed on success, and loading ends either way.
     */
    method Fetch(result: Option<seq<Notification>>)
      requires Valid()
      modifies this
      ensures Valid()
      ensures userId == old(userId)
      ensures !SignedIn(old(userId)) ==>
        notifications == old(notifications) && unreadCount == old(unreadCount) && loading == old(loading)
      ensures SignedIn(old(userId)) && result.Some? ==>
        notifications == result.value && unreadCount == Unread(result.value) && Consistent() && !loading
      ensures SignedIn(old(userId)) && result.None? ==>
        notifications == old(notifications) && unreadCount == old(unreadCount) && !loading
    {
      if SignedIn(userId) {
        if result.Some? {
          notifications := result.value;
          unreadCount := Unread(result.value);
        }
        loading := false;
      }
    }

    /**
     * `markAsRead(id)`, `ok` saying whether the update succeeded. Unlike the
     * other handlers it does not look at the user. The counter drops by
     * one, but not below 0, whatever the list held; it stays in step with
     * the list when exactly one unread notification has that id.
     */
    method MarkAsRead(id: Id, ok: bool)
      requires Valid()
      modifies this
      ensures Valid()
      ensures userId == old(userId) && loading == old(loading)
      ensures ok ==>
        notifications == MarkRead(old(notifications), id)
        && unreadCount == (if old(unreadCount) > 0 then old(unreadCount) - 1 else 0)
      ensures !ok ==> notifications == old(notifications) && unreadCount == old(unreadCount)
      ensures ok && old(Consistent()) && DistinctIds(old(notifications))
        && (exists i :: 0 <= i < |old(notifications)| && old(notifications)[i].id == id && !old(notifications)[i].read)
        ==> Consistent()
    {
      if ok {
        if DistinctIds(notifications) {
          UnreadAfterMarkRead(notifications, id);
        }
        notifications := MarkRead(notifications, id);
        unreadCount := if unreadCount > 0 then unreadCount - 1 else 0;
      }
    }

    /** `markAllAsRead`: with a user and a successful update, everything is read and the counter is 0. */
    method MarkAllAsRead(ok: bool)
      requires Valid()
      modifies this
      ensures Valid()
      ensures userId == old(userId) && loading == old(loading)
      ensures SignedIn(old(userId)) && ok ==> notifications == MarkAllRead(old(notifications)) && unreadCount == 0
      ensures SignedIn(old(userId)) && ok ==> Consistent()
      ensures !SignedIn(old(userId)) || !ok ==> notifications == old(notifications) && unreadCount == old(unreadCount)
    {
      if SignedIn(userId) && ok {
        notifications := MarkAllRead(notifications);
        unreadCount := 0;
        AllReadNothingUnread(notifications);
      }
    }

    /**
     * `createNotification` with the row the insert returns (`None` for an
     * error), and the realtime insert handler, which exists only while a
     * user is signed in: the new notification goes first and the counter
     * grows by one, in step with the list when the new one is unread.
     */
    method Prepend(created: Option<Notification>)
      requires Valid()
      modifies this
      ensures Valid()
      ensures userId == old(userId) && loading == old(loading)
      ensures SignedIn(old(userId)) && created.Some? ==>
        notifications == [created.value] + old(notifications) && unreadCount == old(unreadCount) + 1
      ensures SignedIn(old(userId)) && created.Some? && !created.value.read && old(Consistent()) ==> Consistent()
      ensures !SignedIn(old(userId)) || created.None? ==>
        notifications == old(notifications) && unreadCount == old(unreadCount)
    {
      if SignedIn(userId) && created.Some? {
        assert ([created.value] + notifications)[1..] == notifications;
        notifications := [created.value] + notifications;
        unreadCount := unreadCount + 1;
      }
    }
  }
}
