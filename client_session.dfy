/**
 * What ApiClient.cs does to its session, as functions: the session is the bearer token, the
 * Authorization header, the namespaced cache, the clock and what has been sent upstream. Each
 * function returns the session after the call and the call's outcome (a value or the exception
 * it throws). The upstream cloud is an input: what it answers at each clock reading.
 */
module ClientSession {
  import opened Wrappers
  import opened Dictionaries
  import opened Extensions
  import opened Tokens
  import opened Appliances
  import opened ApplianceGraph
  import opened NotificationFeed
  import opened NamespacedCache
  import opened Aggregates

  /** The cache lifetime of every cached fetch, ten minutes (`_cacheDuration`). */
  const CacheDuration := 600
  /** Constants.SnoozeRefreshDelay: the unit of the polling back-off, in seconds. */
  const SnoozeRefreshDelay := 5
  /** Constants.SnoozeTimeout: how long a snooze or wake is awaited, in seconds. */
  const SnoozeTimeout := 180

  datatype CommandInfo = CommandInfo(
    tempUserUnlockOn: bool,
    reasonForChange: int,
    pressureMeasurementRunning: bool,
    buzzerOn: bool,
    buzzerSoundProfile: int,
    valveOpen: bool,
    measureNow: bool)

  /** The valve command document of SenseGuardCommand.cs. */
  datatype SenseGuardCommand = SenseGuardCommand(
    applianceId: string,
    commandType: int,
    command: CommandInfo,
    commandBase64: Option<string>,
    timestamp: Option<int>)

  /** The body of a mark-as-read PUT (NotificationReadCommand.cs); the other fields are constant. */
  datatype NotificationReadCommand = NotificationReadCommand(
    applianceId: string, category: int, notificationType: int, notificationId: string, timestamp: int)

  /** The requests that change something upstream, as the session sends them. */
  datatype Request =
    | LoginForm(action: string, username: string, password: string)
    | TokenGrant(refreshToken: string)
    | SnoozePut(locationId: int, roomId: int, applianceId: string, minutes: int)
    | SnoozeDelete(locationId: int, roomId: int, applianceId: string)
    | CommandPost(locationId: int, roomId: int, applianceId: string, command: SenseGuardCommand)
    | ReadPut(notificationId: string, body: NotificationReadCommand)
    | NotificationDelete(notificationId: string)

  /**
   * The outcomes of the login exchange: whether GET oidc/login got a success status, the form
   * action found in its HTML (if any), the status of the form POST, and the tokens behind the
   * redirect. None is a request that throws.
   */
  datatype LoginFlow = LoginFlow(
    pageOk: Option<bool>, formAction: Option<string>, submitStatus: Option<int>, redirectTokens: Option<TokenResponse>)

  /** The path and query of an aggregated-data request; dates are day numbers. */
  datatype AggregateQuery = AggregateQuery(
    locationId: int, roomId: int, applianceId: string, aggregation: Aggregation, from: int, to: int)

  /**
   * The cloud at one clock reading. A missing entry, or None, is a request that throws;
   * `accepts` says which state-changing requests get a success status, None when the request
   * itself throws.
   */
  datatype Cloud = Cloud(
    login: LoginFlow,
    tokenGrant: Option<TokenResponse>,                       // POST oidc/token
    locations: Option<seq<Location>>,                        // GET locations
    inventory: Inventory,                                    // rooms, appliances, status
    pages: seq<Page>,                                        // successive profile/notifications answers
    latest: Option<Page>,                                    // profile/notifications?pageSize=1
    commands: map<(int, int, string), SenseGuardCommand>,    // GET .../appliances/{id}/command
    aggregates: map<AggregateQuery, AggregateData>,          // GET .../data/aggregated
    accepts: Request -> Option<bool>)

  /**
   * What a call depends on besides the session: the cloud at each clock reading, the message
   * table of NotificationTypes.GetCategoryTypeMessage and the configuration.
   */
  datatype Environment = Environment(
    cloud: int -> Cloud,
    messages: (int, int) -> string,
    config: map<string, string>)

  /** What the client caches: one variant per cached method's return type. */
  datatype CacheValue =
    | LocationsValue(locations: Dict<int, Location>)
    | AppliancesValue(appliances: Dict<string, Appliance>)
    | NotificationsValue(notifications: Dict<string, Notification>)
    | AggregateValue(data: Option<AggregateData>)

  predicate IsLocations(v: CacheValue) { v.LocationsValue? }
  predicate IsAppliances(v: CacheValue) { v.AppliancesValue? }
  predicate IsNotifications(v: CacheValue) { v.NotificationsValue? }
  predicate IsAggregate(v: CacheValue) { v.AggregateValue? }

  /**
   * The state of one ApiClient: `_authTokens` (null before Login), the values of the
   * Authorization default header, the namespace and entries of its cache, the clock, the
   * delays awaited so far, and the state-changing requests sent so far.
   */
  datatype Session = Session(
    tokens: Option<AuthTokens>,
    authorization: seq<string>,
    namespace: string,
    entries: map<string, Entry<CacheValue>>,
    now: int,
    delays: seq<int>,
    sent: seq<Request>)

  /** A call that does not wait: the clock, the delays and the cache namespace stay as they were. */
  predicate Instant(s: Session, s': Session) {
    s'.now == s.now && s'.delays == s.delays && s'.namespace == s.namespace
  }

  /** Every cache entry outside `keys` is as it was. */
  ghost predicate OnlyWrites(s: Session, s': Session, keys: set<string>) {
    forall k :: k !in keys ==> (k in s'.entries <==> k in s.entries) && (k in s.entries ==> s'.entries[k] == s.entries[k])
  }

  /** The underlying cache key of `nameof(method)`. */
  function Slot(s: Session, name: string): string {
    Key(s.namespace, Text(name))
  }

  function Store(s: Session, key: string, v: CacheValue): Session {
    s.(entries := s.entries[key := Entry(v, s.now + CacheDuration)])
  }

  function Send(s: Session, request: Request): Session {
    s.(sent := s.sent + [request])
  }

  /** IsSuccessStatusCode of a state-changing request; a request that throws is an HttpRequestException. */
  function Status(answer: Option<bool>): (r: Result<bool>)
    ensures r.Ok? <==> answer.Some?
    ensures r.Ok? ==> r.value == answer.value
    ensures r.Err? ==> r.error == HttpRequest
  {
    if answer.None? then Err(HttpRequest) else Ok(answer.value)
  }

  /** Task.Delay: the clock moves on by `seconds`. */
  function Delay(s: Session, seconds: int): Session {
    s.(now := s.now + seconds, delays := s.delays + [seconds])
  }

  /** UpdateAuthTokens: install the token object and replace the Authorization header. */
  function UpdateAuthTokens(s: Session, t: AuthTokens): Session {
    s.(tokens := Some(t), authorization := ["Bearer " + t.accessToken])
  }

  /** FlushCache: remove the three slots named after GetLocations, GetAppliances and GetNotifications. */
  function FlushCache(s: Session): Session {
    s.(entries := s.entries - {Slot(s, "GetLocations"), Slot(s, "GetAppliances"), Slot(s, "GetNotifications")})
  }

  /**
   * RefreshTokenIfNecessary: nothing while RefreshAt lies ahead; otherwise a refresh-token grant
   * whose answer replaces the tokens. An unreadable answer throws.
   */
  function RefreshTokenIfNecessary(s: Session, env: Environment): (r: (Session, Result<()>))
    ensures Instant(s, r.0) && r.0.entries == s.entries
  {
    if s.tokens.None? then (s, Err(NullReference))
    else if !RefreshDue(s.tokens.value, s.now) then (s, Ok(()))
    else
      var s1 := Send(s, TokenGrant(s.tokens.value.refreshToken));
      match env.cloud(s.now).tokenGrant
      case None => (s1, Err(Json))
      case Some(body) => (UpdateAuthTokens(s1, Received(body, s.now)), Ok(()))
  }

  function LocationId(l: Location): int { l.id }
  function LocationSelf(l: Location): Location { l }

  /** GetLocations: cached read-through of GET locations, keyed by location id. */
  function GetLocations(s: Session, env: Environment): (r: (Session, Result<Dict<int, Location>>))
    ensures Instant(s, r.0) && OnlyWrites(s, r.0, {Slot(s, "GetLocations")})
  {
    var key := Slot(s, "GetLocations");
    var hit := TypedLookup(s.entries, key, s.now, IsLocations);
    if hit.Some? then (s, Ok(hit.value.locations))
    else
      var (s1, refreshed) := RefreshTokenIfNecessary(s, env);
      if refreshed.Err? then (s1, Err(refreshed.error))
      else match env.cloud(s1.now).locations
        case None => (s1, Err(HttpRequest))
        case Some(ls) =>
          match ToDictionary(ls, LocationId, LocationSelf)
          case Err(e) => (s1, Err(e))
          case Ok(d) => (Store(s1, key, LocationsValue(d)), Ok(d))
  }

  /** GetAppliances: cached read-through of the appliance graph over the locations' values. */
  function GetAppliances(s: Session, env: Environment): (r: (Session, Result<Dict<string, Appliance>>))
    ensures Instant(s, r.0) && OnlyWrites(s, r.0, {Slot(s, "GetLocations"), Slot(s, "GetAppliances")})
  {
    var key := Slot(s, "GetAppliances");
    var hit := TypedLookup(s.entries, key, s.now, IsAppliances);
    if hit.Some? then (s, Ok(hit.value.appliances))
    else
      var (s1, refreshed) := RefreshTokenIfNecessary(s, env);
      if refreshed.Err? then (s1, Err(refreshed.error))
      else
        var (s2, locations) := GetLocations(s1, env);
        if locations.Err? then (s2, Err(locations.error))
        else match Graph(env.cloud(s2.now).inventory, Values(locations.value))
          case Err(e) => (s2, Err(e))
          case Ok(d) => (Store(s2, key, AppliancesValue(d)), Ok(d))
  }

  /** The runtime type that GetAppliances<T> tests with `is T`. */
  datatype ApplianceClass = AnyAppliance | SenseAppliance | SenseGuardAppliance

  predicate IsInstance(c: ApplianceClass, a: Appliance) {
    match c
    case AnyAppliance => true
    case SenseAppliance => a.kind == Sense
    case SenseGuardAppliance => a.kind == SenseGuard
  }

  /** The three Where filters of GetAppliances<T>, in the source's order. */
  function Select(d: Dict<string, Appliance>, c: ApplianceClass, locationId: Option<int>, applianceId: Option<string>)
    : Dict<string, Appliance>
  {
    var ofType := Where(d, (k: string, a: Appliance) => IsInstance(c, a));
    var byId := if applianceId.None? then ofType else Where(ofType, (k: string, a: Appliance) => a.id == applianceId.value);
    if locationId.None? then byId else Where(byId, (k: string, a: Appliance) => a.location.id == locationId.value)
  }

  /** GetAppliances<T>(locationId, applianceId). */
  function GetAppliancesOf(s: Session, env: Environment, c: ApplianceClass, locationId: Option<int>, applianceId: Option<string>)
    : (r: (Session, Result<Dict<string, Appliance>>))
    ensures Instant(s, r.0) && OnlyWrites(s, r.0, {Slot(s, "GetLocations"), Slot(s, "GetAppliances")})
  {
    var (s1, all) := GetAppliances(s, env);
    (s1, if all.Err? then Err(all.error) else Ok(Select(all.value, c, locationId, applianceId)))
  }

  /**
   * The private GetNotifications: cached read-through of the paginated listing, enriched from
   * the locations and appliances. It is cached under the slot named after GetAppliances.
   */
  function GetAllNotifications(s: Session, env: Environment): (r: (Session, Result<Dict<string, Notification>>))
    ensures Instant(s, r.0) && OnlyWrites(s, r.0, {Slot(s, "GetLocations"), Slot(s, "GetAppliances")})
  {
    var key := Slot(s, "GetAppliances");
    var hit := TypedLookup(s.entries, key, s.now, IsNotifications);
    if hit.Some? then (s, Ok(hit.value.notifications))
    else StoreNotifications(ListNotifications(s, env), key)
  }

  /** FluentSet after the awaited generator: a listing is stored under `key`; an exception stores nothing. */
  function StoreNotifications(generated: (Session, Result<Dict<string, Notification>>), key: string)
    : (r: (Session, Result<Dict<string, Notification>>))
    ensures r.1 == generated.1
    ensures r.1.Err? ==> r.0 == generated.0
    ensures r.1.Ok? ==> r.0.entries == generated.0.entries[key := Entry(NotificationsValue(r.1.value), generated.0.now + CacheDuration)]
  {
    if generated.1.Err? then generated
    else (Store(generated.0, key, NotificationsValue(generated.1.value)), generated.1)
  }

  /** The generator of the notifications listing: every page, enriched from the locations and appliances. */
  function ListNotifications(s: Session, env: Environment): (r: (Session, Result<Dict<string, Notification>>))
    ensures Instant(s, r.0) && OnlyWrites(s, r.0, {Slot(s, "GetLocations"), Slot(s, "GetAppliances")})
  {
    var (s1, refreshed) := RefreshTokenIfNecessary(s, env);
    if refreshed.Err? then (s1, Err(refreshed.error))
    else
      var (s2, locations) := GetLocations(s1, env);
      if locations.Err? then (s2, Err(locations.error))
      else
        var (s3, appliances) := GetAppliances(s2, env);
        if appliances.Err? then (s3, Err(appliances.error))
        else
          var ctx := Lookups(appliances.value, locations.value, env.messages);
          (s3, Paginate(env.cloud(s3.now).pages, 0, [], None, ctx).0)
  }

  /** GetNotifications(locationId). */
  function GetNotifications(s: Session, env: Environment, locationId: Option<int>)
    : (r: (Session, Result<Dict<string, Notification>>))
    ensures Instant(s, r.0)
  {
    var (s1, all) := GetAllNotifications(s, env);
    (s1, if all.Err? then Err(all.error) else Ok(AtLocation(all.value, locationId)))
  }

  /** GetLatestNotificationId: uncached, and without a token refresh. */
  function GetLatestNotificationId(s: Session, env: Environment): Result<Option<string>> {
    match env.cloud(s.now).latest
    case None => Err(HttpRequest)
    case Some(page) => LatestId(page)
  }

  /** The first `n` waits of the back-off that starts at `multiplier`. */
  function Backoff(multiplier: int, n: nat): (b: seq<int>)
    ensures |b| == n && forall i :: 0 <= i < n ==> b[i] == SnoozeRefreshDelay * (multiplier + i)
  {
    seq(n, i requires 0 <= i < n => SnoozeRefreshDelay * (multiplier + i))
  }

  function Sum(xs: seq<int>): int {
    if xs == [] then 0 else xs[0] + Sum(xs[1..])
  }

  /** One wait followed by the back-off from the next multiplier is the back-off one longer. */
  lemma BackoffStep(multiplier: int, n: nat)
    ensures [SnoozeRefreshDelay * multiplier] + Backoff(multiplier + 1, n) == Backoff(multiplier, n + 1)
    ensures Sum(Backoff(multiplier, n + 1)) == SnoozeRefreshDelay * multiplier + Sum(Backoff(multiplier + 1, n))
  {
    assert Backoff(multiplier, n + 1)[1..] == Backoff(multiplier + 1, n);
  }

  /** From `s` to `s'` the session waited exactly the back-off from `multiplier` on, and no longer. */
  predicate Waited(s: Session, s': Session, multiplier: int) {
    |s.delays| <= |s'.delays|
    && s'.delays == s.delays + Backoff(multiplier, |s'.delays| - |s.delays|)
    && s'.now == s.now + Sum(Backoff(multiplier, |s'.delays| - |s.delays|))
  }

  /** Waiting once at `multiplier` and then the back-off from the next multiplier is the back-off from `multiplier`. */
  lemma {:induction false} WaitedStep(s: Session, s': Session, multiplier: int)
    requires Waited(Delay(s, SnoozeRefreshDelay * multiplier), s', multiplier + 1)
    ensures Waited(s, s', multiplier)
  {
    var d := SnoozeRefreshDelay * multiplier;
    var s1 := Delay(s, d);
    var n := |s'.delays| - |s1.delays|;
    BackoffStep(multiplier, n);
    calc {
      s'.delays;
      s1.delays + Backoff(multiplier + 1, n);
      s.delays + [d] + Backoff(multiplier + 1, n);
      s.delays + ([d] + Backoff(multiplier + 1, n));
      s.delays + Backoff(multiplier, n + 1);
    }
  }

  /**
   * The polling loop of SnoozeGuard (`asleep`) and WakeGuard (`!asleep`): while the clock is
   * before the deadline, flush, refetch and stop once SnoozedUntil is non-null (resp. null);
   * otherwise wait SnoozeRefreshDelay times the multiplier, which grows by one. So the waits are
   * 5, 10, 15, ... seconds and the clock moves on by exactly those; the loop reports success
   * only from a check made before the deadline and gives up only once the deadline has passed.
   */
  function Await(s: Session, env: Environment, applianceId: string, deadline: int, multiplier: int, asleep: bool)
    : (r: (Session, Result<bool>))
    requires multiplier >= 1
    ensures r.0.namespace == s.namespace
    ensures Waited(s, r.0, multiplier)
    ensures r.1 == Ok(false) ==> r.0.now >= deadline
    ensures r.1 == Ok(true) ==> r.0.now < deadline
    decreases deadline - s.now, 1
  {
    if !(s.now < deadline) then (s, Ok(false))
    else
      var observed := GetAppliancesOf(FlushCache(s), env, SenseGuardAppliance, None, None);
      assert Instant(s, observed.0);
      AwaitObserved(observed.0, observed.1, env, applianceId, deadline, multiplier, asleep)
  }

  /** One check of the polling loop, on the guards just fetched; waits and loops when it fails. */
  function AwaitObserved(s: Session, guards: Result<Dict<string, Appliance>>, env: Environment, applianceId: string,
    deadline: int, multiplier: int, asleep: bool)
    : (r: (Session, Result<bool>))
    requires multiplier >= 1 && s.now < deadline
    ensures r.0.namespace == s.namespace
    ensures Waited(s, r.0, multiplier)
    ensures r.1 == Ok(false) ==> r.0.now >= deadline
    ensures r.1 == Ok(true) ==> r.0.now < deadline
    decreases deadline - s.now, 0
  {
    if guards.Err? then (s, Err(guards.error))
    else match Get(guards.value, applianceId)
      case None => (s, Err(KeyNotFound))   // the dictionary indexer
      case Some(g) =>
        if g.snoozedUntil.Some? == asleep then (s, Ok(true))
        else
          var r := Await(Delay(s, SnoozeRefreshDelay * multiplier), env, applianceId, deadline, multiplier + 1, asleep);
          WaitedStep(s, r.0, multiplier);
          r
  }

  /** One round of the polling loop before the deadline: flush, refetch, then check. */
  lemma AwaitRound(s: Session, env: Environment, applianceId: string, deadline: int, multiplier: int, asleep: bool)
    requires multiplier >= 1 && s.now < deadline
    ensures var observed := GetAppliancesOf(FlushCache(s), env, SenseGuardAppliance, None, None);
      Await(s, env, applianceId, deadline, multiplier, asleep)
      == AwaitObserved(observed.0, observed.1, env, applianceId, deadline, multiplier, asleep)
  {
  }

  /** A check that finds the guard in the other state waits and starts the next round. */
  lemma AwaitWait(s: Session, guards: Dict<string, Appliance>, env: Environment, applianceId: string,
    deadline: int, multiplier: int, asleep: bool)
    requires multiplier >= 1 && s.now < deadline
    requires Get(guards, applianceId).Some? && Get(guards, applianceId).value.snoozedUntil.Some? != asleep
    ensures AwaitObserved(s, Ok(guards), env, applianceId, deadline, multiplier, asleep)
      == Await(Delay(s, SnoozeRefreshDelay * multiplier), env, applianceId, deadline, multiplier + 1, asleep)
  {
  }

  /** The try block of WakeGuard. */
  function WakeAttempt(s: Session, env: Environment, applianceId: string): (Session, Result<bool>) {
    var (s1, guards) := GetAppliancesOf(s, env, SenseGuardAppliance, None, None);
    if guards.Err? then (s1, Err(guards.error))
    else match Get(guards.value, applianceId)
      case None => (s1, Ok(false))
      case Some(g) => Wake(s1, env, applianceId, g)
  }

  /** The DELETE of the guard's snooze, then the wait for it to wake up. */
  function Wake(s: Session, env: Environment, applianceId: string, g: Appliance): (Session, Result<bool>) {
    var request := SnoozeDelete(g.location.id, g.room.id, g.id);
    var s1 := Send(s, request);
    match env.cloud(s1.now).accepts(request)
    case None => (s1, Err(HttpRequest))
    case Some(false) => (s1, Ok(false))
    case Some(true) => Await(s1, env, applianceId, s1.now + SnoozeTimeout, 1, false)
  }

  /** WakeGuard: the refresh precedes the try; the finally block flushes on every exit. */
  function WakeGuard(s: Session, env: Environment, applianceId: string): (Session, Result<bool>) {
    var (s1, refreshed) := RefreshTokenIfNecessary(s, env);
    if refreshed.Err? then (s1, Err(refreshed.error))
    else
      var (s2, r) := WakeAttempt(s1, env, applianceId);
      (FlushCache(s2), r)
  }

  /** The try block of SnoozeGuard: wake a snoozed guard first, then PUT the snooze and await it. */
  function SnoozeAttempt(s: Session, env: Environment, applianceId: string, minutes: int): (Session, Result<bool>) {
    var (s1, guards) := GetAppliancesOf(s, env, SenseGuardAppliance, None, None);
    if guards.Err? then (s1, Err(guards.error))
    else match Get(guards.value, applianceId)
      case None => (s1, Ok(false))
      case Some(g) =>
        var (s2, woke) := if g.snoozedUntil.Some? then WakeGuard(s1, env, applianceId) else (s1, Ok(true));
        if woke.Err? then (s2, Err(woke.error))
        else if !woke.value then (s2, Ok(false))
        else Snooze(s2, env, applianceId, g, minutes)
  }

  /** The PUT of the snooze command for the guard found, then the wait for it to fall asleep. */
  function Snooze(s: Session, env: Environment, applianceId: string, g: Appliance, minutes: int): (Session, Result<bool>) {
    var request := SnoozePut(g.location.id, g.room.id, g.id, minutes);
    var s1 := Send(s, request);
    match env.cloud(s1.now).accepts(request)
    case None => (s1, Err(HttpRequest))
    case Some(false) => (s1, Ok(false))
    case Some(true) => Await(s1, env, applianceId, s1.now + SnoozeTimeout, 1, true)
  }

  /** SnoozeGuard: the refresh precedes the try; the finally block flushes on every exit. */
  function SnoozeGuard(s: Session, env: Environment, applianceId: string, minutes: int): (Session, Result<bool>) {
    var (s1, refreshed) := RefreshTokenIfNecessary(s, env);
    if refreshed.Err? then (s1, Err(refreshed.error))
    else
      var (s2, r) := SnoozeAttempt(s1, env, applianceId, minutes);
      (FlushCache(s2), r)
  }

  /** The fields the app does not send back. */
  function Strip(c: SenseGuardCommand): SenseGuardCommand {
    c.(commandBase64 := None, timestamp := None)
  }

  /** GetCommand: the appliance's current command document, without its echo fields. */
  function GetCommand(s: Session, env: Environment, a: Appliance): Result<SenseGuardCommand> {
    var path := (a.location.id, a.room.id, a.id);
    if path in env.cloud(s.now).commands then Ok(Strip(env.cloud(s.now).commands[path])) else Err(HttpRequest)
  }

  function WithValve(c: SenseGuardCommand, open: bool): SenseGuardCommand {
    c.(command := c.command.(valveOpen := open))
  }

  /** The try block of SetValveOpen. */
  function SetValveAttempt(s: Session, env: Environment, applianceId: string, open: bool): (Session, Result<bool>) {
    var (s1, guards) := GetAppliancesOf(s, env, SenseGuardAppliance, None, None);
    if guards.Err? then (s1, Err(guards.error))
    else match Get(guards.value, applianceId)
      case None => (s1, Ok(false))
      case Some(g) =>
        match GetCommand(s1, env, g)
        case Err(e) => (s1, Err(e))
        case Ok(c) =>
          var request := CommandPost(g.location.id, g.room.id, g.id, WithValve(c, open));
          (Send(s1, request), Status(env.cloud(s1.now).accepts(request)))
  }

  /** SetValveOpen: re-post the current command with only ValveOpen changed; always flush. */
  function SetValveOpen(s: Session, env: Environment, applianceId: string, open: bool): (Session, Result<bool>) {
    var (s1, refreshed) := RefreshTokenIfNecessary(s, env);
    if refreshed.Err? then (s1, Err(refreshed.error))
    else
      var (s2, r) := SetValveAttempt(s1, env, applianceId, open);
      (FlushCache(s2), r)
  }

  /** GetValveOpen: ValveOpen of the current command; false for an appliance not found. */
  function GetValveOpen(s: Session, env: Environment, applianceId: string): (r: (Session, Result<bool>))
    ensures Instant(s, r.0)
  {
    var (s1, refreshed) := RefreshTokenIfNecessary(s, env);
    if refreshed.Err? then (s1, Err(refreshed.error))
    else
      var (s2, guards) := GetAppliancesOf(s1, env, SenseGuardAppliance, None, None);
      if guards.Err? then (s2, Err(guards.error))
      else match Get(guards.value, applianceId)
        case None => (s2, Ok(false))
        case Some(g) =>
          match GetCommand(s2, env, g)
          case Err(e) => (s2, Err(e))
          case Ok(c) => (s2, Ok(c.command.valveOpen))
  }

  function ReadCommand(n: RawNotification): NotificationReadCommand {
    NotificationReadCommand(n.applianceId, n.category, n.notificationType, n.id, n.timestamp)
  }

  /** MarkNotificationAsRead: PUT the read command; always flush. */
  function MarkNotificationAsRead(s: Session, env: Environment, n: Notification): (Session, Result<bool>) {
    var (s1, refreshed) := RefreshTokenIfNecessary(s, env);
    if refreshed.Err? then (s1, Err(refreshed.error))
    else
      var request := ReadPut(n.raw.id, ReadCommand(n.raw));
      (FlushCache(Send(s1, request)), Status(env.cloud(s1.now).accepts(request)))
  }

  /** DeleteNotification: DELETE the notification; always flush. */
  function DeleteNotification(s: Session, env: Environment, notificationId: string): (Session, Result<bool>) {
    var (s1, refreshed) := RefreshTokenIfNecessary(s, env);
    if refreshed.Err? then (s1, Err(refreshed.error))
    else
      var request := NotificationDelete(notificationId);
      (FlushCache(Send(s1, request)), Status(env.cloud(s1.now).accepts(request)))
  }

  /**
   * GetAggregatedData: cached per appliance id only. An appliance that is not found yields null,
   * which is cached too.
   */
  function GetAggregatedData(s: Session, env: Environment, applianceId: string, aggregation: Aggregation, from: int, to: int)
    : (r: (Session, Result<Option<AggregateData>>))
    ensures Instant(s, r.0)
    ensures OnlyWrites(s, r.0, {Slot(s, "GetLocations"), Slot(s, "GetAppliances"), Slot(s, "GetAggregatedData|" + applianceId)})
  {
    var key := Slot(s, "GetAggregatedData|" + applianceId);
    var hit := TypedLookup(s.entries, key, s.now, IsAggregate);
    if hit.Some? then (s, Ok(hit.value.data))
    else StoreAggregate(FetchAggregatedData(s, env, applianceId, aggregation, from, to), key)
  }

  /** FluentSet after the awaited generator: the data (or null) is stored under `key`; an exception stores nothing. */
  function StoreAggregate(generated: (Session, Result<Option<AggregateData>>), key: string)
    : (r: (Session, Result<Option<AggregateData>>))
    ensures r.1 == generated.1
    ensures r.1.Err? ==> r.0 == generated.0
    ensures r.1.Ok? ==> r.0.entries == generated.0.entries[key := Entry(AggregateValue(r.1.value), generated.0.now + CacheDuration)]
  {
    if generated.1.Err? then generated
    else (Store(generated.0, key, AggregateValue(generated.1.value)), generated.1)
  }

  /** The generator of GetAggregatedData: null for an appliance not found, else the cloud's answer. */
  function FetchAggregatedData(s: Session, env: Environment, applianceId: string, aggregation: Aggregation, from: int, to: int)
    : (r: (Session, Result<Option<AggregateData>>))
    ensures Instant(s, r.0) && OnlyWrites(s, r.0, {Slot(s, "GetLocations"), Slot(s, "GetAppliances")})
  {
    var (s1, refreshed) := RefreshTokenIfNecessary(s, env);
    if refreshed.Err? then (s1, Err(refreshed.error))
    else
      var (s2, all) := GetAppliancesOf(s1, env, AnyAppliance, None, None);
      if all.Err? then (s2, Err(all.error))
      else match Get(all.value, applianceId)
        case None => (s2, Ok(None))
        case Some(a) =>
          var query := AggregateQuery(a.location.id, a.room.id, a.id, aggregation, from, to);
          if query !in env.cloud(s2.now).aggregates then (s2, Err(HttpRequest))
          else (s2, Ok(Some(env.cloud(s2.now).aggregates[query])))
  }

  /**
   * Login's decisions: a failed GET of the login page returns quietly; a page without a form
   * action, an unusable credential setting, or a form POST answered other than 302 Found
   * throws; otherwise the tokens behind the redirect are installed.
   */
  function Login(s: Session, env: Environment): (Session, Result<()>) {
    var flow := env.cloud(s.now).login;
    if flow.pageOk.None? then (s, Err(HttpRequest))
    else if !flow.pageOk.value then (s, Ok(()))
    else if flow.formAction.None? then (s, Err(Failure("Failed to parse login form action")))
    else
      var user := GetString(env.config, "GROHE_USER", None);
      if user.Err? then (s, Err(user.error))
      else
        var pass := GetString(env.config, "GROHE_PASS", None);
        if pass.Err? then (s, Err(pass.error))
        else
          var s1 := Send(s, LoginForm(flow.formAction.value, user.value, pass.value));
          if flow.submitStatus.None? then (s1, Err(HttpRequest))
          else if flow.submitStatus.value != 302 then (s1, Err(Failure("Login failed - incorrect credentials?")))
          else match flow.redirectTokens
            case None => (s1, Err(HttpRequest))
            case Some(body) => (UpdateAuthTokens(s1, Received(body, s1.now)), Ok(()))
  }
}
