/**
 * `POST /send` stores one notification from the authenticated user;
 * `GET /get` lists the caller's received notifications, newest first,
 * projected to `getNotificationType`.
 */
module NotificationRouter {
  import opened Wrappers
  import opened Zod
  import opened NotificationTypes
  import opened ErrorHandler
  import opened Database
  import opened Response

  /** Every id names a stored user, so that Prisma's `connect` can link it. */
  predicate AllUsersExist(users: seq<User>, ids: seq<int>)
  {
    forall i :: 0 <= i < |ids| ==> FindUserById(users, ids[i]).Some?
  }

  /** No id is listed twice. */
  predicate Distinct(ids: seq<int>)
  {
    forall i, j :: 0 <= i < j < |ids| ==> ids[i] != ids[j]
  }

  /** The receiver links of a notification: the ids listed in `receiverIds`. */
  function ReceiverSet(ids: seq<int>): (r: set<int>)
    ensures forall id :: id in r <==> id in ids
  {
    set id | id in ids
  }

  /** Appending a notification whose sender and receivers exist and whose id is new keeps every link resolving. */
  lemma AppendNotificationKeepsLinks(users: seq<User>, notifications: seq<Notification>, n: Notification)
    requires Linked(users, notifications)
    requires FindUserById(users, n.senderId).Some?
    requires forall id :: id in n.receiverIds ==> FindUserById(users, id).Some?
    requires forall m :: m in notifications ==> m.id != n.id
    ensures Linked(users, notifications + [n])
  {
    var ns := notifications + [n];
    forall i, j | 0 <= i < j < |ns|
      ensures ns[i].id != ns[j].id
    {
      if j == |notifications| {
        assert ns[i] in notifications;
      }
    }
  }

  /**
   * `POST /send`. When the sender or a receiver is not a stored user the
   * create call throws, and the route does not catch it: nothing is stored
   * and the response is left undefined. The route passes repeated receiver
   * ids to `connect` unchanged; whether the store then links them once or
   * throws is the store's behaviour, so for that input the contract allows
   * both, and the body takes the failing one.
   */
  method Send(store: Store, body: Json, senderId: int, newId: int, now: int) returns (out: Outcome)
    requires store.Valid()
    requires forall n :: n in store.notifications ==> n.id != newId
    modifies store
    ensures store.Valid()
    ensures ParseSend(body).None? ==>
      out == Forwarded(ZodErr(ZodError(SendNotificationSchema, body))) && unchanged(store)
    ensures var p := ParseSend(body);
      p.Some? && !(FindUserById(old(store.users), senderId).Some? && AllUsersExist(old(store.users), p.value.receiverIds)) ==>
        out == StoreFailure && unchanged(store)
    ensures var p := ParseSend(body);
      p.Some? && FindUserById(old(store.users), senderId).Some? && AllUsersExist(old(store.users), p.value.receiverIds)
      && Distinct(p.value.receiverIds) ==>
        && store.notifications == old(store.notifications) + [Notification(newId, p.value.message, senderId, ReceiverSet(p.value.receiverIds), now)]
        && store.users == old(store.users)
        && out == Sent(201, Message("Notification sent successfully"), [])
    ensures var p := ParseSend(body);
      p.Some? && FindUserById(old(store.users), senderId).Some? && AllUsersExist(old(store.users), p.value.receiverIds)
      && !Distinct(p.value.receiverIds) ==>
        || (out == StoreFailure && unchanged(store))
        || (&& store.notifications == old(store.notifications) + [Notification(newId, p.value.message, senderId, ReceiverSet(p.value.receiverIds), now)]
            && store.users == old(store.users)
            && out == Sent(201, Message("Notification sent successfully"), []))
  {
    var parsed := ParseSend(body);
    if parsed.None? {
      return Forwarded(ZodErr(ZodError(SendNotificationSchema, body)));
    }
    var d := parsed.value;
    if FindUserById(store.users, senderId).None? || !AllUsersExist(store.users, d.receiverIds)
      || !Distinct(d.receiverIds)
    {
      return StoreFailure;
    }
    var n := Notification(newId, d.message, senderId, ReceiverSet(d.receiverIds), now);
    AppendNotificationKeepsLinks(store.users, store.notifications, n);
    store.notifications := store.notifications + [n];
    out := Sent(201, Message("Notification sent successfully"), []);
  }

  /** The notifications linked to `callerId` as a receiver, in table order. */
  function Received(notifications: seq<Notification>, callerId: int): (r: seq<Notification>)
    ensures forall n :: multiset(r)[n] == if callerId in n.receiverIds then multiset(notifications)[n] else 0
  {
    if notifications == [] then []
    else
      var rest := Received(notifications[1..], callerId);
      assert notifications == [notifications[0]] + notifications[1..];
      if callerId in notifications[0].receiverIds then [notifications[0]] + rest else rest
  }

  /** `orderBy: {createdAt: 'desc'}` */
  ghost predicate NewestFirst(s: seq<Notification>)
  {
    forall i, j :: 0 <= i < j < |s| ==> s[i].createdAt >= s[j].createdAt
  }

  /** Puts `n` in front of the first notification created no later than it. */
  function Insert(n: Notification, s: seq<Notification>): (r: seq<Notification>)
    requires NewestFirst(s)
    ensures |r| == |s| + 1 && (r[0] == n || (s != [] && r[0] == s[0]))
    ensures NewestFirst(r)
    ensures multiset(r) == multiset(s) + multiset{n}
  {
    if s == [] || s[0].createdAt <= n.createdAt then [n] + s
    else
      var rest := Insert(n, s[1..]);
      assert s == [s[0]] + s[1..];
      assert s[0].createdAt >= rest[0].createdAt;
      [s[0]] + rest
  }

  /** Sorts by creation time, newest first; notifications created at the same time keep their table order. */
  function SortNewestFirst(s: seq<Notification>): (r: seq<Notification>)
    ensures NewestFirst(r)
    ensures multiset(r) == multiset(s)
  {
    if s == [] then []
    else
      assert s == [s[0]] + s[1..];
      Insert(s[0], SortNewestFirst(s[1..]))
  }

  /** The caller's received notifications, newest first: exactly the linked ones, each as often as stored. */
  function Inbox(notifications: seq<Notification>, callerId: int): (r: seq<Notification>)
    ensures NewestFirst(r)
    ensures forall n :: n in r <==> n in notifications && callerId in n.receiverIds
    ensures forall n :: multiset(r)[n] == if callerId in n.receiverIds then multiset(notifications)[n] else 0
  {
    var r := SortNewestFirst(Received(notifications, callerId));
    assert forall n :: n in r <==> n in multiset(r);
    assert forall n :: n in notifications <==> n in multiset(notifications);
    r
  }

  /** The `select` of one received notification: id, message and the sender's id, name and email. */
  function View(users: seq<User>, n: Notification): (v: NotificationView)
    requires FindUserById(users, n.senderId).Some?
    ensures v.id == n.id && v.message == n.message && v.sender.id == n.senderId
    ensures exists u :: u in users && u.id == n.senderId && v.sender == SenderView(u.id, u.email, u.name)
  {
    var sender := FindUserById(users, n.senderId).value;
    NotificationView(n.id, n.message, SenderView(sender.id, sender.email, sender.name))
  }

  /**
   * The query behind `GET /get`: None when the caller has no user row
   * (`notifications?.receivedNotifications` is undefined), otherwise the
   * views of the caller's inbox in order.
   */
  function GetNotifications(users: seq<User>, notifications: seq<Notification>, callerId: int)
    : (r: Option<seq<NotificationView>>)
    requires forall n :: n in notifications ==> FindUserById(users, n.senderId).Some?
    ensures r.None? <==> forall u :: u in users ==> u.id != callerId
    ensures r.Some? ==>
      var inbox := Inbox(notifications, callerId);
      |r.value| == |inbox| &&
      forall i :: 0 <= i < |inbox| ==>
        r.value[i].id == inbox[i].id && r.value[i].message == inbox[i].message &&
        r.value[i].sender.id == inbox[i].senderId && callerId in inbox[i].receiverIds &&
        exists u :: u in users && u.id == inbox[i].senderId && r.value[i].sender == SenderView(u.id, u.email, u.name)
  {
    if FindUserById(users, callerId).None? then None
    else
      var inbox := Inbox(notifications, callerId);
      Some(seq(|inbox|, i requires 0 <= i < |inbox| => View(users, inbox[i])))
  }

  /** `GET /get`: always 200, with the list, or no list for a caller without a user row. */
  method Get(store: Store, callerId: int) returns (out: Outcome)
    requires store.Valid()
    ensures out.Sent? && out.status == 200 && out.cookies == []
    ensures out.body == Notifications(GetNotifications(store.users, store.notifications, callerId))
  {
    var notifications := GetNotifications(store.users, store.notifications, callerId);
    out := Sent(200, Notifications(notifications), []);
  }
}
