/** service/NotificationService.java over model/Notification.java: each
    recipient's stored notifications, read and unread. */
module Notifications {
  import opened Wrappers
  import opened Ids
  import opened Events

  /** One row of `notifications`. */
  datatype Notification = Notification(
    id: int,
    message: string,
    notificationType: NotificationType,
    url: Option<string>,
    createdAt: Instant,
    readAt: Option<Instant>,
    isRead: bool,
    recipientId: int,
    recipientType: UserType)

  type NotificationTable = map<int, Notification>

  // ----- the push destination

  /** `recipientType.toString().toLowerCase()`. */
  function TypeName(t: UserType): (s: string)
    ensures '-' !in s && |s| > 0
  {
    match t
    case Customer => "customer"
    case ServiceProvider => "service_provider"
    case Admin => "admin"
  }

  function DigitChar(d: nat): (c: char)
    requires d < 10
    ensures '0' <= c <= '9'
  {
    ('0' as int + d) as char
  }

  /** `%d` of a non-negative number. */
  function NatToString(n: nat): (s: string)
    ensures |s| >= 1 && (|s| == 1 <==> n < 10)
    ensures forall i :: 0 <= i < |s| ==> '0' <= s[i] <= '9'
  {
    if n < 10 then [DigitChar(n)] else NatToString(n / 10) + [DigitChar(n % 10)]
  }

  /** `%d` of a long: a minus sign before the magnitude when negative. */
  function IntToString(i: int): (s: string)
    ensures |s| >= 1 && (s[0] == '-' <==> i < 0)
  {
    if i < 0 then "-" + NatToString(-i) else NatToString(i)
  }

  lemma {:induction false} NatToStringInjective(a: nat, b: nat)
    requires NatToString(a) == NatToString(b)
    ensures a == b
  {
    if a >= 10 {
      var s := NatToString(a);
      assert s[..|s| - 1] == NatToString(a / 10) && s[|s| - 1] == DigitChar(a % 10);
      assert s[..|s| - 1] == NatToString(b / 10) && s[|s| - 1] == DigitChar(b % 10);
      NatToStringInjective(a / 10, b / 10);
    }
  }

  lemma IntToStringInjective(a: int, b: int)
    requires IntToString(a) == IntToString(b)
    ensures a == b
  {
    if a < 0 {
      assert IntToString(a)[1..] == NatToString(-a) && IntToString(b)[1..] == NatToString(-b);
      NatToStringInjective(-a, -b);
    } else {
      NatToStringInjective(a, b);
    }
  }

  /** The WebSocket destination createNotification pushes to. */
  function Destination(t: UserType, recipientId: int): string {
    "/user/" + RecipientKey(t, recipientId) + "/notifications"
  }

  /** `<type>-<id>`, the per-recipient part of the destination. */
  function RecipientKey(t: UserType, recipientId: int): string {
    TypeName(t) + "-" + IntToString(recipientId)
  }

  /** The first '-' of `name + "-" + rest`, for a name without one, ends the name. */
  lemma SplitAtDash(a: string, x: string, b: string, y: string)
    requires '-' !in a && '-' !in b && a + "-" + x == b + "-" + y
    ensures a == b && x == y
  {
    var s := a + "-" + x;
    assert forall k :: 0 <= k < |a| ==> s[k] == a[k];
    assert forall k :: 0 <= k < |b| ==> s[k] == b[k];
    assert s[|a|] == '-' && s[|b|] == '-';
    assert |a| == |b|;
    assert a == s[..|a|] == b;
    assert x == s[|a| + 1..] == y;
  }

  /** What lies between a fixed prefix and a fixed suffix is determined. */
  lemma Between(p: string, a: string, b: string, q: string)
    requires p + a + q == p + b + q
    ensures a == b
  {
    var s := p + a + q;
    assert |a| == |b|;
    assert s[|p|..|p| + |a|] == a;
    assert (p + b + q)[|p|..|p| + |b|] == b;
  }

  /** Distinct recipients never share a destination. */
  lemma DestinationInjective(t1: UserType, i1: int, t2: UserType, i2: int)
    requires Destination(t1, i1) == Destination(t2, i2)
    ensures t1 == t2 && i1 == i2
  {
    Between("/user/", RecipientKey(t1, i1), RecipientKey(t2, i2), "/notifications");
    SplitAtDash(TypeName(t1), IntToString(i1), TypeName(t2), IntToString(i2));
    IntToStringInjective(i1, i2);
  }

  // ----- the store

  predicate IsFor(n: Notification, userId: int, userType: UserType) {
    n.recipientId == userId && n.recipientType == userType
  }

  /** findByRecipientIdAndRecipientType. */
  function ForRecipient(m: NotificationTable, userId: int, userType: UserType): (r: NotificationTable)
    ensures forall k :: k in r <==> k in m && IsFor(m[k], userId, userType)
    ensures forall k :: k in r ==> r[k] == m[k]
  {
    map k | k in m && IsFor(m[k], userId, userType) :: m[k]
  }

  /** findByRecipientIdAndRecipientTypeAndIsReadIsFalse. */
  function UnreadFor(m: NotificationTable, userId: int, userType: UserType): (r: NotificationTable)
    ensures forall k :: k in r <==> k in m && IsFor(m[k], userId, userType) && !m[k].isRead
    ensures forall k :: k in r ==> r[k] == m[k]
  {
    map k | k in m && IsFor(m[k], userId, userType) && !m[k].isRead :: m[k]
  }

  /** countUnreadNotifications. */
  function UnreadCount(m: NotificationTable, userId: int, userType: UserType): nat {
    |UnreadFor(m, userId, userType).Keys|
  }

  /** Notification.markAsRead(): read, stamped with the clock. */
  function MarkRead(n: Notification, now: Instant): (r: Notification)
    ensures r.isRead && r.readAt == Some(now)
    ensures r.(isRead := n.isRead, readAt := n.readAt) == n
  {
    n.(isRead := true, readAt := Some(now))
  }

  /** markAllAsRead's change: the recipient's unread rows are marked, every
      other row is left as it was. */
  function MarkAllRead(m: NotificationTable, userId: int, userType: UserType, now: Instant): (r: NotificationTable)
    ensures r.Keys == m.Keys
    ensures forall k :: k in m ==> r[k] == (if IsFor(m[k], userId, userType) && !m[k].isRead then MarkRead(m[k], now) else m[k])
  {
    map k | k in m :: if IsFor(m[k], userId, userType) && !m[k].isRead then MarkRead(m[k], now) else m[k]
  }

  /** deleteAllNotifications' change. */
  function WithoutRecipient(m: NotificationTable, userId: int, userType: UserType): (r: NotificationTable)
    ensures forall k :: k in r <==> k in m && !IsFor(m[k], userId, userType)
    ensures forall k :: k in r ==> r[k] == m[k]
  {
    map k | k in m && !IsFor(m[k], userId, userType) :: m[k]
  }

  /** After markAllAsRead the recipient has nothing unread. */
  lemma MarkAllReadClearsUnread(m: NotificationTable, userId: int, userType: UserType, now: Instant)
    ensures UnreadCount(MarkAllRead(m, userId, userType, now), userId, userType) == 0
  {
    var after := MarkAllRead(m, userId, userType, now);
    assert forall k :: k !in UnreadFor(after, userId, userType);
    assert UnreadFor(after, userId, userType).Keys == {};
  }

  /** markAllAsRead leaves every other recipient's unread list as it was. */
  lemma MarkAllReadKeepsOthers(m: NotificationTable, userId: int, userType: UserType, now: Instant,
                               otherId: int, otherType: UserType)
    requires otherId != userId || otherType != userType
    ensures UnreadFor(MarkAllRead(m, userId, userType, now), otherId, otherType) == UnreadFor(m, otherId, otherType)
  {
    var after := MarkAllRead(m, userId, userType, now);
    forall k | k in m && IsFor(m[k], otherId, otherType)
      ensures after[k] == m[k]
    {
      assert !IsFor(m[k], userId, userType);
    }
    forall k
      ensures k in UnreadFor(after, otherId, otherType) <==> k in UnreadFor(m, otherId, otherType)
    {
    }
  }

  /** Marking everything read a second time changes nothing. */
  lemma MarkAllReadIdempotent(m: NotificationTable, userId: int, userType: UserType, now: Instant)
    ensures MarkAllRead(MarkAllRead(m, userId, userType, now), userId, userType, now) == MarkAllRead(m, userId, userType, now)
  {
    var once := MarkAllRead(m, userId, userType, now);
    var twice := MarkAllRead(once, userId, userType, now);
    assert twice.Keys == once.Keys;
    assert forall k :: k in once ==> twice[k] == once[k];
  }

  /** markAsRead is idempotent on the read flag: a second call only moves
      readAt to its own clock reading. */
  lemma MarkReadTwice(n: Notification, first: Instant, second: Instant)
    ensures MarkRead(MarkRead(n, first), second) == MarkRead(n, second)
    ensures MarkRead(MarkRead(n, first), first) == MarkRead(n, first)
  {
  }

  /** deleteAllNotifications empties that recipient's list and keeps every
      other recipient's. */
  lemma WithoutRecipientEffect(m: NotificationTable, userId: int, userType: UserType, otherId: int, otherType: UserType)
    ensures ForRecipient(WithoutRecipient(m, userId, userType), userId, userType) == map[]
    ensures otherId != userId || otherType != userType ==>
      ForRecipient(WithoutRecipient(m, userId, userType), otherId, otherType) == ForRecipient(m, otherId, otherType)
  {
  }

  /** The table while markAllAsRead runs: the rows of `done` are marked. */
  function PartlyMarked(m: NotificationTable, done: set<int>, now: Instant): (r: NotificationTable)
    ensures r.Keys == m.Keys
  {
    map k | k in m :: if k in done then MarkRead(m[k], now) else m[k]
  }

  lemma MarkOneMore(m: NotificationTable, done: set<int>, k: int, now: Instant)
    requires k in m && k !in done
    ensures PartlyMarked(m, done + {k}, now) == PartlyMarked(m, done, now)[k := MarkRead(PartlyMarked(m, done, now)[k], now)]
  {
  }

  /** Marking every unread row of the recipient is MarkAllRead. */
  lemma AllMarked(m: NotificationTable, userId: int, userType: UserType, now: Instant)
    ensures PartlyMarked(m, UnreadFor(m, userId, userType).Keys, now) == MarkAllRead(m, userId, userType, now)
  {
  }

  class NotificationService {
    var notifications: NotificationTable
    var nextId: int

    ghost predicate Valid()
      reads this
    {
      forall k :: k in notifications ==> notifications[k].id == k && k < nextId
    }

    constructor ()
      ensures Valid() && notifications == map[]
    {
      notifications := map[];
      nextId := 1;
    }

    /** createNotification: stores an unread row stamped `now` and returns
        the destination the row is pushed to. */
    method CreateNotification(message: string, notificationType: NotificationType, url: Option<string>,
                              recipientId: int, recipientType: UserType, now: Instant) returns (destination: string)
      requires Valid()
      modifies this
      ensures Valid() && nextId == old(nextId) + 1
      ensures notifications == old(notifications)[old(nextId) :=
        Notification(old(nextId), message, notificationType, url, now, None, false, recipientId, recipientType)]
      ensures destination == Destination(recipientType, recipientId)
    {
      var n := Notification(nextId, message, notificationType, url, now, None, false, recipientId, recipientType);
      notifications := notifications[nextId := n];
      nextId := nextId + 1;
      destination := "/user/" + RecipientKey(recipientType, recipientId) + "/notifications";
    }

    /** getUserNotifications. */
    function GetUserNotifications(userId: int, userType: UserType): NotificationTable
      reads this
    {
      ForRecipient(notifications, userId, userType)
    }

    /** getUnreadNotifications. */
    function GetUnreadNotifications(userId: int, userType: UserType): NotificationTable
      reads this
    {
      UnreadFor(notifications, userId, userType)
    }

    /** getUnreadCount. */
    function GetUnreadCount(userId: int, userType: UserType): nat
      reads this
    {
      UnreadCount(notifications, userId, userType)
    }

    /** markAsRead: an unknown id changes nothing. */
    method MarkAsRead(id: int, now: Instant)
      requires Valid()
      modifies this
      ensures Valid() && nextId == old(nextId)
      ensures id !in old(notifications) ==> notifications == old(notifications)
      ensures id in old(notifications) ==> notifications == old(notifications)[id := MarkRead(old(notifications)[id], now)]
    {
      if id in notifications {
        notifications := notifications[id := MarkRead(notifications[id], now)];
      }
    }

    /** markAllAsRead: marks the recipient's unread rows one by one. */
    method MarkAllAsRead(userId: int, userType: UserType, now: Instant)
      requires Valid()
      modifies this
      ensures Valid() && nextId == old(nextId)
      ensures notifications == MarkAllRead(old(notifications), userId, userType, now)
    {
      var unread := UnreadFor(notifications, userId, userType).Keys;
      ghost var all := unread;
      ghost var before := notifications;
      while unread != {}
        invariant unread <= all <= before.Keys
        invariant notifications == PartlyMarked(before, all - unread, now)
        invariant Valid() && nextId == old(nextId)
        decreases unread
      {
        var k := Pick(unread);
        MarkOneMore(before, all - unread, k, now);
        notifications := notifications[k := MarkRead(notifications[k], now)];
        unread := unread - {k};
        assert all - unread == (all - (unread + {k})) + {k};
      }
      AllMarked(before, userId, userType, now);
    }

    /** deleteNotification: deleteById ignores an unknown id. */
    method DeleteNotification(id: int)
      requires Valid()
      modifies this
      ensures Valid() && nextId == old(nextId)
      ensures notifications == old(notifications) - {id}
    {
      notifications := notifications - {id};
    }

    /** deleteAllNotifications. */
    method DeleteAllNotifications(userId: int, userType: UserType)
      requires Valid()
      modifies this
      ensures Valid() && nextId == old(nextId)
      ensures notifications == WithoutRecipient(old(notifications), userId, userType)
    {
      notifications := map k | k in notifications && !IsFor(notifications[k], userId, userType) :: notifications[k];
    }
  }
}
