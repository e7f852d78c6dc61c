/**
 * Controllers/NotificationsController.cs: the notification listing, newest first; the next
 * notification after a unix time, optionally marked as read or deleted; and the delete endpoint.
 * The controller sees the ApiClient through its answers: `listed` is what GetNotifications
 * returned, `deleteNotification` and `markAsReadCall` what DeleteNotification and
 * MarkNotificationAsRead return.
 */
module NotificationsControl {
  import opened Wrappers
  import opened Dictionaries
  import opened Appliances
  import opened NotificationFeed
  import opened Replies

  /** The JSON shape of a notification; Timestamp and UnixTime are the same instant, in seconds. */
  datatype ApiNotification = ApiNotification(
    id: string,
    timestamp: int,
    unixTime: int,
    appliance: string,
    applianceType: ApplianceType,
    location: string,
    message: string,
    isRead: bool)

  /** The calls GetNextNotification makes on the ApiClient. */
  datatype NotificationCall = DeleteCall(id: string) | MarkReadCall(id: string)

  /** GetApiModel: the notification's own fields, with the names the listing added. */
  function GetApiModel(n: Notification): (r: ApiNotification)
    ensures r.id == n.raw.id && r.timestamp == n.raw.timestamp && r.unixTime == n.raw.timestamp
    ensures r.appliance == n.applianceName && r.applianceType == n.applianceType
    ensures r.location == n.locationName && r.message == n.message && r.isRead == n.raw.isRead
  {
    ApiNotification(n.raw.id, n.raw.timestamp, n.raw.timestamp, n.applianceName, n.applianceType,
      n.locationName, n.message, n.raw.isRead)
  }

  /** The sort key: the timestamp, negated when descending. */
  function Key(n: Notification, descending: bool): int {
    if descending then -n.raw.timestamp else n.raw.timestamp
  }

  /** No element has a smaller key than one before it. */
  predicate Ordered(xs: seq<Notification>, descending: bool) {
    forall i, j :: 0 <= i < j < |xs| ==> Key(xs[i], descending) <= Key(xs[j], descending)
  }

  /** Puts `x`, which came first in the input, ahead of every element whose key is not smaller. */
  function Insert(x: Notification, ys: seq<Notification>, descending: bool): (r: seq<Notification>)
    requires Ordered(ys, descending)
    ensures multiset(r) == multiset(ys) + multiset{x}
    ensures Ordered(r, descending)
  {
    if ys == [] || Key(x, descending) <= Key(ys[0], descending) then
      OrderedCons(x, ys, descending);
      [x] + ys
    else
      var rest := Insert(x, ys[1..], descending);
      InsertBehind(x, ys, rest, descending);
      [ys[0]] + rest
  }

  /** `x` sorts behind the head of `ys`: the head stays first, ahead of `x` inserted into the tail. */
  lemma InsertBehind(x: Notification, ys: seq<Notification>, rest: seq<Notification>, descending: bool)
    requires Ordered(ys, descending) && ys != [] && Key(ys[0], descending) < Key(x, descending)
    requires Ordered(rest, descending) && multiset(rest) == multiset(ys[1..]) + multiset{x}
    ensures multiset([ys[0]] + rest) == multiset(ys) + multiset{x}
    ensures Ordered([ys[0]] + rest, descending)
  {
    assert ys == [ys[0]] + ys[1..];
    assert forall z :: z in multiset(ys[1..]) ==> z in ys[1..];
    Below(ys[0], rest, multiset(ys[1..]) + multiset{x}, descending);
    OrderedCons(ys[0], rest, descending);
  }

  /** An element whose key is at most every key of an ordered sequence can head it. */
  lemma OrderedCons(y: Notification, rest: seq<Notification>, descending: bool)
    requires Ordered(rest, descending)
    requires forall j :: 0 <= j < |rest| ==> Key(y, descending) <= Key(rest[j], descending)
    ensures Ordered([y] + rest, descending)
  {
    var r := [y] + rest;
    forall i, j | 0 <= i < j < |r| ensures Key(r[i], descending) <= Key(r[j], descending) {
      assert r[j] == rest[j - 1];
      if i > 0 {
        assert r[i] == rest[i - 1];
      }
    }
  }

  /** Every element of `rest` is drawn from `bag`, whose keys are all at least `y`'s. */
  lemma Below(y: Notification, rest: seq<Notification>, bag: multiset<Notification>, descending: bool)
    requires multiset(rest) == bag
    requires forall z :: z in bag ==> Key(y, descending) <= Key(z, descending)
    ensures forall j :: 0 <= j < |rest| ==> Key(y, descending) <= Key(rest[j], descending)
  {
    forall j | 0 <= j < |rest| ensures Key(y, descending) <= Key(rest[j], descending) {
      assert rest[j] in multiset(rest);
    }
  }

  /**
   * LINQ's OrderBy/OrderByDescending on Timestamp: a stable insertion sort (elements with the
   * same timestamp keep their order).
   */
  function OrderBy(xs: seq<Notification>, descending: bool): (r: seq<Notification>)
    ensures multiset(r) == multiset(xs)
    ensures Ordered(r, descending)
  {
    if xs == [] then []
    else
      assert xs == [xs[0]] + xs[1..];
      Insert(xs[0], OrderBy(xs[1..], descending), descending)
  }

  /** GetNotifications: every notification, newest first, as its API model. */
  function GetNotifications(listed: Result<Dict<string, Notification>>): (r: Result<seq<ApiNotification>>)
    ensures r.Ok? <==> listed.Ok?
  {
    if listed.Err? then Err(listed.error)
    else
      Ok(Models(OrderBy(Values(listed.value), true)))
  }

  function Models(ns: seq<Notification>): (r: seq<ApiNotification>)
    ensures |r| == |ns| && forall i :: 0 <= i < |ns| ==> r[i] == GetApiModel(ns[i])
  {
    seq(|ns|, i requires 0 <= i < |ns| => GetApiModel(ns[i]))
  }

  /**
   * The listing holds exactly the listed notifications, as many times as they occur, and is
   * ordered by descending timestamp.
   */
  lemma GetNotificationsSpec(notifications: Dict<string, Notification>)
    ensures var r := GetNotifications(Ok(notifications));
      && |r.value| == |notifications|
      && (forall i, j :: 0 <= i < j < |r.value| ==> r.value[i].timestamp >= r.value[j].timestamp)
      && (forall k :: 0 <= k < |notifications| ==> GetApiModel(notifications[k].1) in r.value)
      && (forall i :: 0 <= i < |r.value| ==> exists k :: 0 <= k < |notifications| && r.value[i] == GetApiModel(notifications[k].1))
  {
    var values := Values(notifications);
    var sorted := OrderBy(values, true);
    SameElements(sorted, values);
    assert |sorted| == |values| by {
      assert |multiset(sorted)| == |multiset(values)|;
    }
    forall k | 0 <= k < |notifications| ensures GetApiModel(notifications[k].1) in Models(sorted) {
      assert values[k] in sorted;
      var i :| 0 <= i < |sorted| && sorted[i] == values[k];
      assert Models(sorted)[i] == GetApiModel(values[k]);
    }
    forall i | 0 <= i < |sorted| ensures exists k :: 0 <= k < |notifications| && Models(sorted)[i] == GetApiModel(notifications[k].1) {
      assert sorted[i] in values;
      var k :| 0 <= k < |values| && values[k] == sorted[i];
      assert Models(sorted)[i] == GetApiModel(notifications[k].1);
    }
  }

  /**
   * The next notification after `lastUnixTime`: the first, in ascending timestamp order, whose
   * unix time is later.
   */
  function FirstAfter(sorted: seq<Notification>, lastUnixTime: int): (r: Option<Notification>)
    ensures r.Some? <==> exists i :: 0 <= i < |sorted| && sorted[i].raw.timestamp > lastUnixTime
    ensures r.Some? ==> r.value in sorted && r.value.raw.timestamp > lastUnixTime
    ensures r.Some? ==> exists i :: 0 <= i < |sorted| && sorted[i] == r.value
                           && forall j :: 0 <= j < i ==> sorted[j].raw.timestamp <= lastUnixTime
  {
    if sorted == [] then None
    else if sorted[0].raw.timestamp > lastUnixTime then Some(sorted[0])
    else
      var r := FirstAfter(sorted[1..], lastUnixTime);
      assert forall i :: 0 < i < |sorted| ==> sorted[i] == sorted[1..][i - 1];
      if r.Some? then
        var i :| 0 <= i < |sorted[1..]| && sorted[1..][i] == r.value
                 && forall j :: 0 <= j < i ==> sorted[1..][j].raw.timestamp <= lastUnixTime;
        assert sorted[i + 1] == r.value;
        r
      else r
  }

  /** In ascending order, the first notification later than `lastUnixTime` is the earliest of them. */
  lemma FirstAfterLeast(sorted: seq<Notification>, lastUnixTime: int)
    requires Ordered(sorted, false)
    ensures var r := FirstAfter(sorted, lastUnixTime);
      r.Some? ==> forall j :: 0 <= j < |sorted| && sorted[j].raw.timestamp > lastUnixTime ==>
                    r.value.raw.timestamp <= sorted[j].raw.timestamp
  {
    var r := FirstAfter(sorted, lastUnixTime);
    if r.Some? {
      var i :| 0 <= i < |sorted| && sorted[i] == r.value && forall j :: 0 <= j < i ==> sorted[j].raw.timestamp <= lastUnixTime;
      forall j | 0 <= j < |sorted| && sorted[j].raw.timestamp > lastUnixTime
        ensures r.value.raw.timestamp <= sorted[j].raw.timestamp
      {
        assert i <= j;
        assert Key(sorted[i], false) <= Key(sorted[j], false) || i == j;
      }
    }
  }

  /** Sequences with the same multiset have the same elements. */
  lemma SameElements(a: seq<Notification>, b: seq<Notification>)
    requires multiset(a) == multiset(b)
    ensures forall x :: x in a <==> x in b
  {
    forall x ensures x in a <==> x in b {
      assert x in a <==> x in multiset(a);
      assert x in b <==> x in multiset(b);
    }
  }

  function Next(notifications: Dict<string, Notification>, lastUnixTime: int): Option<Notification> {
    FirstAfter(OrderBy(Values(notifications), false), lastUnixTime)
  }

  /**
   * The next notification is one of the listed ones, later than `lastUnixTime`, and no listed
   * notification later than `lastUnixTime` is earlier than it; there is none exactly when no
   * listed notification is later.
   */
  lemma NextSpec(notifications: Dict<string, Notification>, lastUnixTime: int)
    ensures var r := Next(notifications, lastUnixTime);
      && (r.Some? <==> exists k :: 0 <= k < |notifications| && notifications[k].1.raw.timestamp > lastUnixTime)
      && (r.Some? ==>
            r.value.raw.timestamp > lastUnixTime
            && (exists k :: 0 <= k < |notifications| && notifications[k].1 == r.value)
            && forall k :: 0 <= k < |notifications| && notifications[k].1.raw.timestamp > lastUnixTime ==>
                 r.value.raw.timestamp <= notifications[k].1.raw.timestamp)
  {
    var values := Values(notifications);
    var sorted := OrderBy(values, false);
    var r := FirstAfter(sorted, lastUnixTime);
    SameElements(sorted, values);
    FirstAfterLeast(sorted, lastUnixTime);
    if exists k :: 0 <= k < |notifications| && notifications[k].1.raw.timestamp > lastUnixTime {
      var k :| 0 <= k < |notifications| && notifications[k].1.raw.timestamp > lastUnixTime;
      assert values[k] in sorted;
    }
    if r.Some? {
      forall k | 0 <= k < |notifications| && notifications[k].1.raw.timestamp > lastUnixTime
        ensures r.value.raw.timestamp <= notifications[k].1.raw.timestamp
      {
        assert values[k] in sorted;
      }
      assert r.value in values;
    }
  }

  /**
   * GetNextNotification: 404 when there is no next notification; with `delete` only
   * DeleteNotification is called, otherwise MarkNotificationAsRead only when asked to and the
   * notification is unread. Their answers are not looked at, but an exception leaves the action.
   */
  function GetNextReply(lastUnixTime: int, listed: Result<Dict<string, Notification>>, markAsRead: bool, delete: bool,
    deleteNotification: string -> Result<bool>, markAsReadCall: Notification -> Result<bool>)
    : Result<Reply<ApiNotification>>
  {
    if listed.Err? then Err(listed.error)
    else
      match Next(listed.value, lastUnixTime)
      case None => Ok(NotFound(None))
      case Some(next) =>
        if delete then
          match deleteNotification(next.raw.id)
          case Err(e) => Err(e)
          case Ok(_) => Ok(Success(GetApiModel(next.(raw := next.raw.(isRead := next.raw.isRead || markAsRead)))))
        else if markAsRead && !next.raw.isRead then
          match markAsReadCall(next)
          case Err(e) => Err(e)
          case Ok(_) => Ok(Success(GetApiModel(next.(raw := next.raw.(isRead := true)))))
        else Ok(Success(GetApiModel(next)))
  }

  function GetNextCalls(lastUnixTime: int, listed: Result<Dict<string, Notification>>, markAsRead: bool, delete: bool)
    : seq<NotificationCall>
  {
    if listed.Err? then []
    else
      match Next(listed.value, lastUnixTime)
      case None => []
      case Some(next) =>
        if delete then [DeleteCall(next.raw.id)]
        else if markAsRead && !next.raw.isRead then [MarkReadCall(next.raw.id)]
        else []
  }

  /** The action, step by step, with the calls it makes. */
  method GetNextNotification(lastUnixTime: int, listed: Result<Dict<string, Notification>>, markAsRead: bool,
    delete: bool, deleteNotification: string -> Result<bool>, markAsReadCall: Notification -> Result<bool>)
    returns (r: Result<Reply<ApiNotification>>, calls: seq<NotificationCall>)
    ensures r == GetNextReply(lastUnixTime, listed, markAsRead, delete, deleteNotification, markAsReadCall)
    ensures calls == GetNextCalls(lastUnixTime, listed, markAsRead, delete)
  {
    calls := [];
    if listed.Err? {
      return Err(listed.error), calls;
    }
    var found := Next(listed.value, lastUnixTime);
    if found.None? {
      return Ok(NotFound(None)), calls;
    }
    var next := found.value;
    if delete {
      calls := [DeleteCall(next.raw.id)];
      var deleted := deleteNotification(next.raw.id);
      if deleted.Err? {
        return Err(deleted.error), calls;
      }
      next := next.(raw := next.raw.(isRead := next.raw.isRead || markAsRead));
    } else if markAsRead && !next.raw.isRead {
      calls := [MarkReadCall(next.raw.id)];
      var marked := markAsReadCall(next);
      if marked.Err? {
        return Err(marked.error), calls;
      }
      next := next.(raw := next.raw.(isRead := true));
    }
    r := Ok(Success(GetApiModel(next)));
  }

  /**
   * The reply: 404 exactly when there is no next notification; otherwise that notification,
   * read when it was read already or `markAsRead` was asked, whatever the upstream answered.
   * Deleting calls only DeleteNotification; otherwise MarkNotificationAsRead is called only for
   * an unread notification when asked to.
   */
  lemma GetNextSpec(lastUnixTime: int, notifications: Dict<string, Notification>, markAsRead: bool, delete: bool,
    deleteNotification: string -> Result<bool>, markAsReadCall: Notification -> Result<bool>)
    ensures var next := Next(notifications, lastUnixTime);
      var r := GetNextReply(lastUnixTime, Ok(notifications), markAsRead, delete, deleteNotification, markAsReadCall);
      var calls := GetNextCalls(lastUnixTime, Ok(notifications), markAsRead, delete);
      && (next.None? ==> r == Ok(NotFound(None)) && calls == [])
      && (next.Some? && r.Ok? ==>
            r.value.Success?
            && r.value.body.id == next.value.raw.id && r.value.body.unixTime == next.value.raw.timestamp
            && r.value.body.isRead == (next.value.raw.isRead || markAsRead))
      && (next.Some? && delete ==> calls == [DeleteCall(next.value.raw.id)])
      && (next.Some? && !delete ==>
            (calls == [MarkReadCall(next.value.raw.id)] <==> markAsRead && !next.value.raw.isRead)
            && (calls == [] <==> !markAsRead || next.value.raw.isRead))
      && (next.Some? ==> (r.Err? <==>
            if delete then deleteNotification(next.value.raw.id).Err?
            else markAsRead && !next.value.raw.isRead && markAsReadCall(next.value).Err?))
  {
  }

  /** DeleteNotification: 200 when the upstream delete succeeded, else 503. */
  function DeleteNotification(notificationId: string, deleteNotification: string -> Result<bool>)
    : (r: Result<Reply<()>>)
    ensures r.Err? <==> deleteNotification(notificationId).Err?
    ensures r.Ok? ==> (r.value == Done <==> deleteNotification(notificationId) == Ok(true))
    ensures r.Ok? ==> (StatusCode(r.value) == 503 <==> deleteNotification(notificationId) == Ok(false))
  {
    match deleteNotification(notificationId)
    case Err(e) => Err(e)
    case Ok(success) => Ok(if success then Done else Unavailable("Failed to delete notification"))
  }
}
