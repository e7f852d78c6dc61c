/**
 * The notification listing of ApiClient.cs: cursor pagination over profile/notifications,
 * enrichment of every notification with names from the appliance and location dictionaries,
 * the location filter, and the latest-id poll.
 */
module NotificationFeed {
  import opened Wrappers
  import opened Dictionaries
  import opened Appliances
  import opened ApplianceGraph

  /** A notification as the cloud sends it; the timestamp is in unix seconds. */
  datatype RawNotification = RawNotification(
    id: string,
    applianceId: string,
    locationId: int,
    category: int,
    isRead: bool,
    timestamp: int,
    notificationType: int)

  /** A notification with the names the gateway adds to it. */
  datatype Notification = Notification(
    raw: RawNotification,
    applianceName: string,
    applianceType: ApplianceType,
    message: string,
    locationName: string)

  /** What enrichment looks names up in; `messages` stands for NotificationTypes.GetCategoryTypeMessage. */
  datatype Lookups = Lookups(
    appliances: Dict<string, Appliance>,
    locations: Dict<int, Location>,
    messages: (int, int) -> string)

  /** One answer of profile/notifications. */
  datatype Page = Page(
    notifications: Option<seq<RawNotification>>,
    remaining: Option<int>,            // remaining_notifications, a nullable long
    continuationToken: Option<string>)

  /** The query string of one page request: pageSize and the optional continuationToken. */
  datatype PageRequest = PageRequest(pageSize: int, continuationToken: Option<string>)

  /** The enrichment of the pagination loop, with its fallbacks for unknown ids. */
  function Enrich(n: RawNotification, ctx: Lookups): (e: Notification)
    ensures e.raw == n && e.message == ctx.messages(n.category, n.notificationType)
    ensures Get(ctx.appliances, n.applianceId).None? ==>
      e.applianceName == "Unknown Appliance" && e.applianceType == Unknown
    ensures Get(ctx.appliances, n.applianceId).Some? ==>
      e.applianceName == Get(ctx.appliances, n.applianceId).value.name
      && e.applianceType == Get(ctx.appliances, n.applianceId).value.kind
    ensures e.locationName ==
      if Get(ctx.locations, n.locationId).Some? then Get(ctx.locations, n.locationId).value.name
      else "Unknown Location"
  {
    var appliance := Get(ctx.appliances, n.applianceId);
    var location := Get(ctx.locations, n.locationId);
    Notification(
      n,
      if appliance.Some? then appliance.value.name else "Unknown Appliance",
      if appliance.Some? then appliance.value.kind else Unknown,
      ctx.messages(n.category, n.notificationType),
      if location.Some? then location.value.name else "Unknown Location")
  }

  /** The writes `notifications[n.Id] = n` of one page, in order. */
  function Entries(ns: seq<RawNotification>, ctx: Lookups): (d: Dict<string, Notification>)
    ensures |d| == |ns|
  {
    seq(|ns|, i requires 0 <= i < |ns| => (ns[i].id, Enrich(ns[i], ctx)))
  }

  /** The app's page size: 20 for the first page, 10 once something has been listed. */
  function PageSize(acc: Dict<string, Notification>): int {
    if |acc| == 0 then 20 else 10
  }

  /** The token of the next request; `remaining_notifications != 0` also holds when it is null. */
  function NextToken(p: Page): Option<string> {
    if p.remaining != Some(0) then p.continuationToken else None
  }

  /**
   * The do-while loop, continuing at the k-th answer with the notifications listed so far and
   * the current token: the outcome and the page requests it sends. `pages[k]` answers the k-th
   * request; a request beyond the last answer fails.
   */
  function Paginate(pages: seq<Page>, k: nat, acc: Dict<string, Notification>, token: Option<string>, ctx: Lookups)
    : (Result<Dict<string, Notification>>, seq<PageRequest>)
    decreases |pages| - k
  {
    var request := PageRequest(PageSize(acc), token);
    if k >= |pages| then (Err(HttpRequest), [request])
    else if pages[k].notifications.None? then (Err(NullReference), [request])
    else
      var acc' := PutAll(acc, Entries(pages[k].notifications.value, ctx));
      var next := NextToken(pages[k]);
      if next.None? then (Ok(acc'), [request])
      else
        var (r, rest) := Paginate(pages, k + 1, acc', next, ctx);
        (r, [request] + rest)
  }

  /** All the writes of the `n` answers from the k-th on, in order. */
  function Fetched(pages: seq<Page>, k: nat, n: nat, ctx: Lookups): Dict<string, Notification>
    requires k + n <= |pages|
    decreases n
  {
    if n == 0 then []
    else
      var here := if pages[k].notifications.Some? then Entries(pages[k].notifications.value, ctx) else [];
      here + Fetched(pages, k + 1, n - 1, ctx)
  }

  /**
   * The requests of a listing: the first uses the page size for what is listed so far and the
   * current token; every later one carries the continuation token of the page before it, which
   * had remaining_notifications other than 0.
   */
  lemma {:induction false} PaginateRequests(pages: seq<Page>, k: nat, acc: Dict<string, Notification>, token: Option<string>, ctx: Lookups)
    ensures |Paginate(pages, k, acc, token, ctx).1| >= 1
    ensures Paginate(pages, k, acc, token, ctx).1[0] == PageRequest(PageSize(acc), token)
    ensures forall j :: 0 < j < |Paginate(pages, k, acc, token, ctx).1| ==> Later(pages, k, j, Paginate(pages, k, acc, token, ctx).1[j])
    decreases |pages| - k
  {
    if k < |pages| && pages[k].notifications.Some? && NextToken(pages[k]).Some? {
      var acc' := PutAll(acc, Entries(pages[k].notifications.value, ctx));
      PaginateRequests(pages, k + 1, acc', NextToken(pages[k]), ctx);
      var rest := Paginate(pages, k + 1, acc', NextToken(pages[k]), ctx).1;
      var reqs := Paginate(pages, k, acc, token, ctx).1;
      assert reqs == [PageRequest(PageSize(acc), token)] + rest;
      forall j | 0 < j < |reqs|
        ensures Later(pages, k, j, reqs[j])
      {
        assert reqs[j] == rest[j - 1];
        if j > 1 {
          assert Later(pages, k + 1, j - 1, rest[j - 1]);
        }
      }
    }
  }

  /** The j-th request of a listing that started at the k-th answer follows an answer that asked for more. */
  predicate Later(pages: seq<Page>, k: nat, j: int, request: PageRequest) {
    0 < j && k + j - 1 < |pages| && pages[k + j - 1].notifications.Some?
    && request.continuationToken == NextToken(pages[k + j - 1])
    && request.continuationToken.Some?
    && pages[k + j - 1].remaining != Some(0)
  }

  /** Once something has been listed, every further request asks for 10 notifications. */
  lemma {:induction false} PaginateSmallPages(pages: seq<Page>, k: nat, acc: Dict<string, Notification>, token: Option<string>, ctx: Lookups)
    requires UniqueKeys(acc) && |acc| > 0
    ensures forall j :: 0 <= j < |Paginate(pages, k, acc, token, ctx).1| ==> Paginate(pages, k, acc, token, ctx).1[j].pageSize == 10
    decreases |pages| - k
  {
    if k < |pages| && pages[k].notifications.Some? && NextToken(pages[k]).Some? {
      var acc' := PutAll(acc, Entries(pages[k].notifications.value, ctx));
      PutAllUnique(acc, Entries(pages[k].notifications.value, ctx));
      PaginateSmallPages(pages, k + 1, acc', NextToken(pages[k]), ctx);
    }
  }

  /**
   * A listing that succeeds stops within the answers, at a page with remaining_notifications 0
   * or no token.
   */
  lemma {:induction false} PaginateStops(pages: seq<Page>, k: nat, acc: Dict<string, Notification>, token: Option<string>, ctx: Lookups)
    requires Paginate(pages, k, acc, token, ctx).0.Ok?
    ensures var n := |Paginate(pages, k, acc, token, ctx).1|;
      k + n <= |pages| && NextToken(pages[k + n - 1]).None?
    decreases |pages| - k
  {
    var next := NextToken(pages[k]);
    if next.None? {
      PaginateStop(pages, k, acc, token, ctx);
    } else {
      var acc' := PutAll(acc, Entries(pages[k].notifications.value, ctx));
      PaginateStep(pages, k, acc, token, ctx);
      PaginateStops(pages, k + 1, acc', next, ctx);
    }
  }

  /**
   * The notifications of a listing that succeeds are the writes of every page fetched, in
   * order: a later page overwrites an earlier entry with the same id.
   */
  lemma {:induction false} PaginateResult(pages: seq<Page>, k: nat, acc: Dict<string, Notification>, token: Option<string>, ctx: Lookups)
    requires Paginate(pages, k, acc, token, ctx).0.Ok?
    ensures k + |Paginate(pages, k, acc, token, ctx).1| <= |pages|
    ensures Paginate(pages, k, acc, token, ctx).0.value
      == PutAll(acc, Fetched(pages, k, |Paginate(pages, k, acc, token, ctx).1|, ctx))
    decreases |pages| - k
  {
    PaginateStops(pages, k, acc, token, ctx);
    var es := Entries(pages[k].notifications.value, ctx);
    var next := NextToken(pages[k]);
    if next.None? {
      PaginateStop(pages, k, acc, token, ctx);
      assert Fetched(pages, k, 1, ctx) == es + [] == es;
    } else {
      var acc' := PutAll(acc, es);
      var rest := Paginate(pages, k + 1, acc', next, ctx);
      PaginateStep(pages, k, acc, token, ctx);
      PaginateResult(pages, k + 1, acc', next, ctx);
      PutAllAppend(acc, es, Fetched(pages, k + 1, |rest.1|, ctx));
    }
  }

  /** A page that asks for more: its request, then the rest of the loop from the next answer. */
  lemma PaginateStep(pages: seq<Page>, k: nat, acc: Dict<string, Notification>, token: Option<string>, ctx: Lookups)
    requires k < |pages| && pages[k].notifications.Some? && NextToken(pages[k]).Some?
    ensures var acc' := PutAll(acc, Entries(pages[k].notifications.value, ctx));
      var rest := Paginate(pages, k + 1, acc', NextToken(pages[k]), ctx);
      Paginate(pages, k, acc, token, ctx) == (rest.0, [PageRequest(PageSize(acc), token)] + rest.1)
  {
  }

  /** A page that asks for nothing more ends the listing with its writes. */
  lemma PaginateStop(pages: seq<Page>, k: nat, acc: Dict<string, Notification>, token: Option<string>, ctx: Lookups)
    requires k < |pages| && pages[k].notifications.Some? && NextToken(pages[k]).None?
    ensures Paginate(pages, k, acc, token, ctx)
      == (Ok(PutAll(acc, Entries(pages[k].notifications.value, ctx))), [PageRequest(PageSize(acc), token)])
  {
  }

  /** A successful listing from nothing keys each notification by its id, with no id twice. */
  lemma ListingKeys(pages: seq<Page>, ctx: Lookups, id: string)
    requires Paginate(pages, 0, [], None, ctx).0.Ok?
    ensures |Paginate(pages, 0, [], None, ctx).1| <= |pages|
    ensures Paginate(pages, 0, [], None, ctx).1[0] == PageRequest(20, None)
    ensures UniqueKeys(Paginate(pages, 0, [], None, ctx).0.value)
    ensures id in Keys(Paginate(pages, 0, [], None, ctx).0.value) <==> id in Keys(Listed(pages, ctx))
    ensures Get(Paginate(pages, 0, [], None, ctx).0.value, id) == GetLast(Listed(pages, ctx), id)
  {
    PaginateResult(pages, 0, [], None, ctx);
    PaginateStops(pages, 0, [], None, ctx);
    PaginateRequests(pages, 0, [], None, ctx);
    var f := Listed(pages, ctx);
    var n := |Paginate(pages, 0, [], None, ctx).1|;
    assert Paginate(pages, 0, [], None, ctx).0.value == PutAll([], f);
    PutAllUnique([], f);
    PutAllMember([], f, id);
    PutAllGet([], f, id);
    GetLastSome(f, id);
  }

  /** The writes of every page a listing from nothing fetched, or none if it never ends within `pages`. */
  function Listed(pages: seq<Page>, ctx: Lookups): Dict<string, Notification> {
    var n := |Paginate(pages, 0, [], None, ctx).1|;
    if n <= |pages| then Fetched(pages, 0, n, ctx) else []
  }

  /** The foreach over one page: enrich each notification and write it under its id. */
  method ApplyPage(notifications: Dict<string, Notification>, ns: seq<RawNotification>, ctx: Lookups)
    returns (d: Dict<string, Notification>)
    ensures d == PutAll(notifications, Entries(ns, ctx))
  {
    d := notifications;
    var i := 0;
    while i < |ns|
      invariant 0 <= i <= |ns|
      invariant d == PutAll(notifications, Entries(ns, ctx)[..i])
    {
      var notification := Enrich(ns[i], ctx);
      assert Entries(ns, ctx)[..i + 1][..i] == Entries(ns, ctx)[..i];
      d := Put(d, ns[i].id, notification);
      i := i + 1;
    }
    assert Entries(ns, ctx)[..|ns|] == Entries(ns, ctx);
  }

  /**
   * One round of the do-while loop: request the page, absorb it, and either stop (`done`, with
   * the outcome) or go on with the notifications so far and the next token.
   */
  method FetchPage(pages: seq<Page>, k: nat, notifications: Dict<string, Notification>, continuationToken: Option<string>,
    ctx: Lookups)
    returns (done: bool, r: Result<Dict<string, Notification>>, listed: Dict<string, Notification>, next: Option<string>)
    ensures done ==>
      Paginate(pages, k, notifications, continuationToken, ctx) == (r, [PageRequest(PageSize(notifications), continuationToken)])
    ensures !done ==> k < |pages|
    ensures !done ==>
      Paginate(pages, k, notifications, continuationToken, ctx)
      == Continue([PageRequest(PageSize(notifications), continuationToken)], Paginate(pages, k + 1, listed, next, ctx))
  {
    if k >= |pages| {
      return true, Err(HttpRequest), notifications, None;
    }
    var page := pages[k];
    if page.notifications.None? {
      return true, Err(NullReference), notifications, None;
    }
    listed := ApplyPage(notifications, page.notifications.value, ctx);
    next := if page.remaining != Some(0) then page.continuationToken else None;
    if next.None? {
      PaginateStop(pages, k, notifications, continuationToken, ctx);
      return true, Ok(listed), listed, next;
    }
    PaginateStep(pages, k, notifications, continuationToken, ctx);
    done, r := false, Ok(listed);
  }

  /** The outcome of a listing whose first `sent` requests have already gone out. */
  function Continue(sent: seq<PageRequest>, rest: (Result<Dict<string, Notification>>, seq<PageRequest>))
    : (Result<Dict<string, Notification>>, seq<PageRequest>)
  {
    (rest.0, sent + rest.1)
  }

  /** Continuing after `sent` and then after one more request is continuing after both. */
  lemma ContinueAfter(sent: seq<PageRequest>, request: PageRequest, rest: (Result<Dict<string, Notification>>, seq<PageRequest>))
    ensures Continue(sent, Continue([request], rest)) == Continue(sent + [request], rest)
  {
    assert sent + ([request] + rest.1) == (sent + [request]) + rest.1;
  }

  /** The loop of the notifications generator: requests pages until the cursor runs out. */
  method FetchPages(pages: seq<Page>, ctx: Lookups) returns (r: Result<Dict<string, Notification>>, requests: seq<PageRequest>)
    ensures (r, requests) == Paginate(pages, 0, [], None, ctx)
  {
    var notifications: Dict<string, Notification> := [];
    var continuationToken: Option<string> := None;
    requests := [];
    var k := 0;
    ghost var outcome := Paginate(pages, 0, [], None, ctx);
    assert [] + outcome.1 == outcome.1;
    while true
      invariant 0 <= k <= |pages|
      invariant outcome == Continue(requests, Paginate(pages, k, notifications, continuationToken, ctx))
      decreases |pages| - k
    {
      var request := PageRequest(if |notifications| == 0 then 20 else 10, continuationToken);
      var done, result, listed, next := FetchPage(pages, k, notifications, continuationToken, ctx);
      if done {
        return result, requests + [request];
      }
      ContinueAfter(requests, request, Paginate(pages, k + 1, listed, next, ctx));
      requests := requests + [request];
      notifications, continuationToken := listed, next;
      k := k + 1;
    }
  }

  /** GetNotifications(locationId): every notification, or those of one location. */
  function AtLocation(d: Dict<string, Notification>, locationId: Option<int>): Dict<string, Notification> {
    if locationId.None? then d else Where(d, (id: string, n: Notification) => n.raw.locationId == locationId.value)
  }

  /** The location filter only removes entries: it keeps exactly those of the location, in order. */
  lemma AtLocationSpec(d: Dict<string, Notification>, locationId: Option<int>, entry: (string, Notification))
    requires UniqueKeys(d)
    ensures UniqueKeys(AtLocation(d, locationId))
    ensures entry in AtLocation(d, locationId) <==>
      entry in d && (locationId.None? || entry.1.raw.locationId == locationId.value)
  {
    if locationId.Some? {
      var p := (id: string, n: Notification) => n.raw.locationId == locationId.value;
      WhereMember(d, p, entry);
      WhereUnique(d, p);
    }
  }

  /** GetLatestNotificationId: the id of the first notification of a one-notification page, if any. */
  function LatestId(page: Page): (r: Result<Option<string>>)
    ensures page.notifications.None? <==> r.Err?
    ensures r.Ok? ==> (r.value.Some? <==> page.notifications.value != [])
    ensures r.Ok? && r.value.Some? ==> r.value.value == page.notifications.value[0].id
  {
    match page.notifications
    case None => Err(Argument) // Enumerable.FirstOrDefault on null throws ArgumentNullException
    case Some(ns) => Ok(if ns == [] then None else Some(ns[0].id))
  }
}
