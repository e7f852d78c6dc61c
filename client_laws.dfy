/**
 * What ApiClient.cs promises about its session: the token refresh and the Authorization
 * header, the cache slots and their read-through, the filters, the polling back-off, the valve
 * command round trip and the flush that ends every state-changing call.
 */
module ClientLaws {
  import opened Wrappers
  import opened Dictionaries
  import opened Extensions
  import opened Tokens
  import opened Appliances
  import opened ApplianceGraph
  import opened NotificationFeed
  import opened NamespacedCache
  import opened Aggregates
  import opened ClientSession

  /** None of the three slots FlushCache removes holds an entry. */
  predicate Flushed(s: Session) {
    Slot(s, "GetLocations") !in s.entries && Slot(s, "GetAppliances") !in s.entries
    && Slot(s, "GetNotifications") !in s.entries
  }

  /**
   * A token whose RefreshAt lies ahead is left alone. A due token is exchanged once for the
   * grant's tokens, stamped now, and the session then carries exactly one Authorization header,
   * the bearer form of the new access token (section 2.1 of RFC 6750).
   */
  lemma RefreshSpec(s: Session, env: Environment)
    ensures s.tokens.None? ==> RefreshTokenIfNecessary(s, env) == (s, Err(NullReference))
    ensures s.tokens.Some? && !RefreshDue(s.tokens.value, s.now) ==> RefreshTokenIfNecessary(s, env) == (s, Ok(()))
    ensures s.tokens.Some? && RefreshDue(s.tokens.value, s.now) ==>
      var (s', r) := RefreshTokenIfNecessary(s, env);
      s'.sent == s.sent + [TokenGrant(s.tokens.value.refreshToken)]
      && (r.Ok? <==> env.cloud(s.now).tokenGrant.Some?)
      && (r.Ok? ==> (s'.tokens == Some(Received(env.cloud(s.now).tokenGrant.value, s.now))
        && |s'.authorization| == 1 && s'.authorization[0] == "Bearer " + s'.tokens.value.accessToken))
      && (r.Err? ==> s'.tokens == s.tokens && s'.authorization == s.authorization)
  {
  }

  /** A token just installed by a refresh is not refreshed again in the same instant. */
  lemma RefreshSettles(s: Session, env: Environment)
    requires RefreshTokenIfNecessary(s, env).1.Ok?
    requires env.cloud(s.now).tokenGrant.Some? ==> env.cloud(s.now).tokenGrant.value.expiresIn >= 2
    ensures var s' := RefreshTokenIfNecessary(s, env).0; RefreshTokenIfNecessary(s', env) == (s', Ok(()))
  {
    if RefreshDue(s.tokens.value, s.now) {
      FreshTokenNotDue(env.cloud(s.now).tokenGrant.value, s.now);
    }
  }

  /** FlushCache removes exactly its three slots and leaves every other entry as it was. */
  lemma FlushSpec(s: Session, key: string)
    ensures Flushed(FlushCache(s))
    ensures key != Slot(s, "GetLocations") && key != Slot(s, "GetAppliances") && key != Slot(s, "GetNotifications") ==>
      (key in FlushCache(s).entries <==> key in s.entries)
      && (key in s.entries ==> FlushCache(s).entries[key] == s.entries[key])
  {
  }

  /** A typed hit answers from the cache: nothing is sent and the session does not change. */
  lemma LocationsHit(s: Session, env: Environment)
    requires TypedLookup(s.entries, Slot(s, "GetLocations"), s.now, IsLocations).Some?
    ensures GetLocations(s, env) == (s, Ok(s.entries[Slot(s, "GetLocations")].value.locations))
  {
  }

  /**
   * A miss fetches the locations, keyed by id, and caches them for ten minutes: until then a
   * second GetLocations is answered from the cache with the same dictionary.
   */
  lemma LocationsReadThrough(s: Session, env: Environment, later: int)
    requires TypedLookup(s.entries, Slot(s, "GetLocations"), s.now, IsLocations).None?
    requires GetLocations(s, env).1.Ok?
    requires s.now <= later < s.now + CacheDuration
    ensures env.cloud(s.now).locations.Some?
    ensures ToDictionary(env.cloud(s.now).locations.value, LocationId, LocationSelf) == GetLocations(s, env).1
    ensures var s' := GetLocations(s, env).0.(now := later);
      GetLocations(s', env) == (s', GetLocations(s, env).1)
  {
    var s1 := RefreshTokenIfNecessary(s, env).0;
    var s2 := GetLocations(s, env).0;
    assert s2 == Store(s1, Slot(s, "GetLocations"), LocationsValue(GetLocations(s, env).1.value));
  }

  /**
   * A miss of GetAppliances builds the appliance graph over the locations' values: only
   * appliances of a known type, each under its own id, with its room, location and status.
   */
  lemma AppliancesFromGraph(s: Session, env: Environment)
    requires TypedLookup(s.entries, Slot(s, "GetAppliances"), s.now, IsAppliances).None?
    requires GetAppliances(s, env).1.Ok?
    ensures var s1 := RefreshTokenIfNecessary(s, env).0;
      var locations := GetLocations(s1, env).1;
      locations.Ok? && GetAppliances(s, env).1 == Graph(env.cloud(s.now).inventory, Values(locations.value))
    ensures var d := GetAppliances(s, env).1.value;
      UniqueKeys(d) && forall i :: 0 <= i < |d| ==> d[i].0 == d[i].1.id && WellFormed(d[i].1) && d[i].1.kind != ApplianceType.Unknown
  {
    var s1 := RefreshTokenIfNecessary(s, env).0;
    var locations := GetLocations(s1, env).1;
    GraphSound(env.cloud(s.now).inventory, Values(locations.value));
  }

  /**
   * The notifications are cached under the slot named after GetAppliances: once a listing has
   * been cached, GetAppliances misses (the entry has the wrong type) and fetches again, and
   * the other way round.
   */
  lemma NotificationsShareAppliancesSlot(s: Session, env: Environment)
    requires TypedLookup(s.entries, Slot(s, "GetAppliances"), s.now, IsNotifications).None?
    requires GetAllNotifications(s, env).1.Ok?
    ensures var s' := GetAllNotifications(s, env).0;
      Slot(s', "GetAppliances") in s'.entries
      && s'.entries[Slot(s', "GetAppliances")].value == NotificationsValue(GetAllNotifications(s, env).1.value)
      && TypedLookup(s'.entries, Slot(s', "GetAppliances"), s'.now, IsAppliances).None?
  {
  }

  /** And once the appliances are cached, the next notification listing misses. */
  lemma AppliancesEvictNotifications(s: Session, env: Environment)
    requires TypedLookup(s.entries, Slot(s, "GetAppliances"), s.now, IsAppliances).None?
    requires GetAppliances(s, env).1.Ok?
    ensures var s' := GetAppliances(s, env).0;
      TypedLookup(s'.entries, Slot(s', "GetAppliances"), s'.now, IsNotifications).None?
  {
  }

  /** No fetch ever writes the slot named after GetNotifications, which FlushCache still removes. */
  lemma NothingWritesNotificationsSlot(s: Session, env: Environment, id: string, aggregation: Aggregation, from: int, to: int)
    ensures var k := Slot(s, "GetNotifications");
      (k in GetLocations(s, env).0.entries <==> k in s.entries)
      && (k in GetAppliances(s, env).0.entries <==> k in s.entries)
      && (k in GetAllNotifications(s, env).0.entries <==> k in s.entries)
      && (k in GetAggregatedData(s, env, id, aggregation, from, to).0.entries <==> k in s.entries)
  {
    NotificationsSlotDistinct(s, id);
  }

  /** The slot named after GetNotifications is none of the slots the fetches write. */
  lemma NotificationsSlotDistinct(s: Session, id: string)
    ensures Slot(s, "GetNotifications") !in {Slot(s, "GetLocations"), Slot(s, "GetAppliances"), Slot(s, "GetAggregatedData|" + id)}
  {
    var ns := s.namespace;
    KeyInjective(ns, "GetLocations", "GetNotifications");
    KeyInjective(ns, "GetAppliances", "GetNotifications");
    assert ("GetAggregatedData|" + id)[3] == 'A' && "GetNotifications"[3] == 'N';
    KeyInjective(ns, "GetAggregatedData|" + id, "GetNotifications");
  }

  /**
   * The aggregated-data slot is keyed by appliance id alone: once filled, a request with another
   * aggregation or date range is answered with the data cached for the first one.
   */
  lemma AggregatedKeyIgnoresQuery(s: Session, env: Environment, id: string,
    aggregation: Aggregation, from: int, to: int, aggregation': Aggregation, from': int, to': int)
    requires TypedLookup(s.entries, Slot(s, "GetAggregatedData|" + id), s.now, IsAggregate).None?
    requires GetAggregatedData(s, env, id, aggregation, from, to).1.Ok?
    ensures var (s1, r1) := GetAggregatedData(s, env, id, aggregation, from, to);
      GetAggregatedData(s1, env, id, aggregation', from', to') == (s1, r1)
  {
  }

  /** GetAppliances<T> only removes entries: it keeps exactly those of the type, id and location asked for. */
  lemma SelectSpec(d: Dict<string, Appliance>, c: ApplianceClass, locationId: Option<int>, applianceId: Option<string>,
    entry: (string, Appliance))
    requires UniqueKeys(d)
    ensures UniqueKeys(Select(d, c, locationId, applianceId))
    ensures entry in Select(d, c, locationId, applianceId) <==>
      entry in d && IsInstance(c, entry.1)
      && (applianceId.None? || entry.1.id == applianceId.value)
      && (locationId.None? || entry.1.location.id == locationId.value)
  {
    var p1 := (k: string, a: Appliance) => IsInstance(c, a);
    var ofType := Where(d, p1);
    WhereMember(d, p1, entry);
    WhereUnique(d, p1);
    var byId := ofType;
    if applianceId.Some? {
      var p2 := (k: string, a: Appliance) => a.id == applianceId.value;
      WhereMember(ofType, p2, entry);
      WhereUnique(ofType, p2);
      byId := Where(ofType, p2);
    }
    if locationId.Some? {
      var p3 := (k: string, a: Appliance) => a.location.id == locationId.value;
      WhereMember(byId, p3, entry);
      WhereUnique(byId, p3);
    }
  }

  /**
   * Every state-changing call whose token refresh succeeded ends with the cache flushed,
   * whatever its outcome; a failed refresh happens before the try and throws unflushed.
   */
  lemma MutationsFlush(s: Session, env: Environment, applianceId: string, minutes: int, open: bool,
    n: Notification, notificationId: string)
    ensures RefreshTokenIfNecessary(s, env).1.Ok? ==>
      Flushed(SnoozeGuard(s, env, applianceId, minutes).0) && Flushed(WakeGuard(s, env, applianceId).0)
      && Flushed(SetValveOpen(s, env, applianceId, open).0) && Flushed(MarkNotificationAsRead(s, env, n).0)
      && Flushed(DeleteNotification(s, env, notificationId).0)
    ensures RefreshTokenIfNecessary(s, env).1.Err? ==>
      var (s1, r1) := RefreshTokenIfNecessary(s, env);
      SnoozeGuard(s, env, applianceId, minutes) == (s1, Err(r1.error))
      && WakeGuard(s, env, applianceId) == (s1, Err(r1.error))
      && SetValveOpen(s, env, applianceId, open) == (s1, Err(r1.error))
      && MarkNotificationAsRead(s, env, n) == (s1, Err(r1.error))
      && DeleteNotification(s, env, notificationId) == (s1, Err(r1.error))
  {
  }

  /** A configuration setting Login can post: configured and not blank. */
  predicate Usable(config: map<string, string>, key: string) {
    !IsNullOrWhiteSpace(Lookup(config, key))
  }

  /**
   * Login: a login page answered with an error status returns quietly and changes nothing. A
   * GET that throws, a page without a form action, or an unusable GROHE_USER or GROHE_PASS
   * throws before anything is posted. Otherwise the configured credentials are posted once,
   * and the call succeeds exactly on a 302 Found whose redirect yields tokens; those are then
   * installed, stamped now, with exactly one bearer header. A failed login keeps the old tokens.
   */
  lemma LoginSpec(s: Session, env: Environment)
    ensures var (s', r) := Login(s, env);
      Instant(s, s') && s'.entries == s.entries
    ensures var flow := env.cloud(s.now).login;
      var credentials := Usable(env.config, "GROHE_USER") && Usable(env.config, "GROHE_PASS");
      var (s', r) := Login(s, env);
      (flow.pageOk == Some(false) ==> s' == s && r == Ok(()))
      && (flow.pageOk.None? ==> s' == s && r == Err(HttpRequest))
      && (flow.pageOk == Some(true) && flow.formAction.None? ==>
        s' == s && r == Err(Failure("Failed to parse login form action")))
      && (flow.pageOk == Some(true) && flow.formAction.Some? && !credentials ==> s' == s && r == Err(Argument))
    ensures var flow := env.cloud(s.now).login;
      var (s', r) := Login(s, env);
      flow.pageOk == Some(true) && flow.formAction.Some?
      && Usable(env.config, "GROHE_USER") && Usable(env.config, "GROHE_PASS") ==>
        s'.sent == s.sent + [LoginForm(flow.formAction.value, env.config["GROHE_USER"], env.config["GROHE_PASS"])]
        && (r.Ok? <==> flow.submitStatus == Some(302) && flow.redirectTokens.Some?)
        && (flow.submitStatus.Some? && flow.submitStatus.value != 302 ==>
          r == Err(Failure("Login failed - incorrect credentials?")))
        && (r.Ok? ==>
          s'.tokens == Some(Received(flow.redirectTokens.value, s.now))
          && s'.authorization == ["Bearer " + flow.redirectTokens.value.accessToken])
        && (r.Err? ==> s'.tokens == s.tokens && s'.authorization == s.authorization)
  {
  }

  /**
   * GetCommand reads the command stored at the guard's path: the same appliance id, command
   * type and command settings, with CommandBase64 and Timestamp cleared; a command the cloud
   * does not answer throws.
   */
  lemma GetCommandSpec(s: Session, env: Environment, a: Appliance)
    ensures var path := (a.location.id, a.room.id, a.id);
      var r := GetCommand(s, env, a);
      (r.Ok? <==> path in env.cloud(s.now).commands)
      && (r.Err? ==> r.error == HttpRequest)
      && (r.Ok? ==>
        var c := env.cloud(s.now).commands[path];
        r.value.applianceId == c.applianceId && r.value.commandType == c.commandType
        && r.value.command == c.command && r.value.commandBase64.None? && r.value.timestamp.None?)
  {
  }

  /**
   * `request` posts `c` back to the guard's command path with ValveOpen set to `open`, every
   * other setting as it was, and the echo fields cleared.
   */
  predicate PostsValve(request: Request, g: Appliance, c: SenseGuardCommand, open: bool) {
    request.CommandPost?
    && request.locationId == g.location.id && request.roomId == g.room.id && request.applianceId == g.id
    && request.command.applianceId == c.applianceId && request.command.commandType == c.commandType
    && request.command.command.valveOpen == open
    && request.command.command == c.command.(valveOpen := open)
    && request.command.commandBase64.None? && request.command.timestamp.None?
  }

  /**
   * The try block of SetValveOpen: a guard that is not found is answered false with nothing
   * posted. For a found guard whose command is answered, exactly one request is posted: the
   * current command with only ValveOpen changed. The result is whether the cloud accepted it,
   * and a POST that throws throws.
   */
  lemma SetValveSpec(s: Session, env: Environment, applianceId: string, open: bool)
    ensures var (s1, guards) := GetAppliancesOf(s, env, SenseGuardAppliance, None, None);
      var (s', r) := SetValveAttempt(s, env, applianceId, open);
      (guards.Err? ==> s' == s1 && r == Err(guards.error))
      && (guards.Ok? && Get(guards.value, applianceId).None? ==> s' == s1 && r == Ok(false))
    ensures var (s1, guards) := GetAppliancesOf(s, env, SenseGuardAppliance, None, None);
      var (s', r) := SetValveAttempt(s, env, applianceId, open);
      guards.Ok? && Get(guards.value, applianceId).Some? ==>
        var g := Get(guards.value, applianceId).value;
        var path := (g.location.id, g.room.id, g.id);
        var cloud := env.cloud(s1.now);
        (path !in cloud.commands ==> s' == s1 && r == Err(HttpRequest))
        && (path in cloud.commands ==>
          |s'.sent| == |s1.sent| + 1 && s'.sent[..|s1.sent|] == s1.sent
          && PostsValve(s'.sent[|s1.sent|], g, cloud.commands[path], open)
          && s' == s1.(sent := s'.sent)
          && (r.Ok? <==> cloud.accepts(s'.sent[|s1.sent|]).Some?)
          && (r.Ok? ==> r.value == cloud.accepts(s'.sent[|s1.sent|]).value)
          && (r.Err? ==> r.error == HttpRequest))
  {
    var (s1, guards) := GetAppliancesOf(s, env, SenseGuardAppliance, None, None);
    var s' := SetValveAttempt(s, env, applianceId, open).0;
    if guards.Ok? && Get(guards.value, applianceId).Some? {
      var g := Get(guards.value, applianceId).value;
      if (g.location.id, g.room.id, g.id) in env.cloud(s1.now).commands {
        assert s'.sent[..|s1.sent|] == s1.sent;
      }
    }
  }

  /**
   * GetValveOpen after a successful refresh: false for a guard that is not found, otherwise
   * ValveOpen of the command stored at the guard's path; a command the cloud does not answer
   * throws. It posts nothing.
   */
  lemma GetValveOpenSpec(s: Session, env: Environment, applianceId: string)
    ensures var (s1, refreshed) := RefreshTokenIfNecessary(s, env);
      var (s', r) := GetValveOpen(s, env, applianceId);
      refreshed.Err? ==> s' == s1 && r == Err(refreshed.error)
    ensures var (s1, refreshed) := RefreshTokenIfNecessary(s, env);
      var (s2, guards) := GetAppliancesOf(s1, env, SenseGuardAppliance, None, None);
      var (s', r) := GetValveOpen(s, env, applianceId);
      refreshed.Ok? ==>
        s' == s2
        && (guards.Err? ==> r == Err(guards.error))
        && (guards.Ok? && Get(guards.value, applianceId).None? ==> r == Ok(false))
        && (guards.Ok? && Get(guards.value, applianceId).Some? ==>
          var g := Get(guards.value, applianceId).value;
          var path := (g.location.id, g.room.id, g.id);
          (path in env.cloud(s.now).commands ==> r == Ok(env.cloud(s.now).commands[path].command.valveOpen))
          && (path !in env.cloud(s.now).commands ==> r == Err(HttpRequest)))
  {
  }

  /**
   * The valve command round trip: once the cloud holds a command that SetValveOpen posts for a
   * guard, GetCommand reads back exactly that command, and GetValveOpen for the same guard
   * answers `open`.
   */
  lemma ValveRoundTrip(request: Request, g: Appliance, c: SenseGuardCommand, open: bool,
    t: Session, env: Environment, applianceId: string)
    requires PostsValve(request, g, c, open)
    requires env.cloud(t.now).commands.Keys >= {(g.location.id, g.room.id, g.id)}
    requires env.cloud(t.now).commands[(g.location.id, g.room.id, g.id)] == request.command
    requires RefreshTokenIfNecessary(t, env).1.Ok?
    requires var t1 := RefreshTokenIfNecessary(t, env).0;
      var guards := GetAppliancesOf(t1, env, SenseGuardAppliance, None, None).1;
      guards.Ok? && Get(guards.value, applianceId) == Some(g)
    ensures GetCommand(t, env, g) == Ok(request.command)
    ensures GetValveOpen(t, env, applianceId).1 == Ok(open)
  {
    GetValveOpenSpec(t, env, applianceId);
  }
}
