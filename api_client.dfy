/**
 * ApiClient.cs as a class. Its fields are what the client updates in place: the token object,
 * the Authorization header values, the namespaced cache. Three more fields stand for what the
 * client reads from its surroundings: the clock (DateTime.Now), the delays awaited (Task.Delay)
 * and the state-changing requests sent (the HTTP client); `env` is what the cloud answers.
 * Every method is proved to leave the client in the state, and to return the outcome, that the
 * ClientSession function of the same name computes; ClientLaws proves what those promise.
 */
module Client {
  import opened Wrappers
  import opened Dictionaries
  import opened Tokens
  import opened ApplianceGraph
  import opened NotificationFeed
  import opened NamespacedCache
  import opened Aggregates
  import opened ClientSession

  class ApiClient {
    var authTokens: Option<AuthTokens>
    var authorization: seq<string>
    const cache: NamespacedMemoryCache<CacheValue>
    const env: Environment
    var now: int
    var delays: seq<int>
    var sent: seq<Request>

    /** The client's state as the ClientSession functions see it. */
    function State(): Session
      reads this, cache.inner
    {
      Session(authTokens, authorization, cache.namespace, cache.inner.entries, now, delays, sent)
    }

    /** The constructor wraps the cache in the namespace "ApiClient"; there is no token yet. */
    constructor (inner: MemoryCache<CacheValue>, assemblyName: string, env: Environment, now: int)
      ensures State() == Session(None, [], Namespace(assemblyName, "ApiClient"), inner.entries, now, [], [])
      ensures this.env == env && cache.inner == inner
    {
      authTokens := None;
      authorization := [];
      cache := new NamespacedMemoryCache(inner, assemblyName, "ApiClient");
      this.env := env;
      this.now := now;
      delays := [];
      sent := [];
    }

    method Login() returns (r: Result<()>)
      modifies this
      ensures (State(), r) == ClientSession.Login(old(State()), env)
    {
      var flow := env.cloud(now).login;
      if flow.pageOk.None? {
        return Err(HttpRequest);
      }
      if !flow.pageOk.value {
        return Ok(());
      }
      if flow.formAction.None? {
        return Err(Failure("Failed to parse login form action"));
      }
      var user := Extensions.GetString(env.config, "GROHE_USER", None);
      if user.Err? {
        return Err(user.error);
      }
      var pass := Extensions.GetString(env.config, "GROHE_PASS", None);
      if pass.Err? {
        return Err(pass.error);
      }
      sent := sent + [LoginForm(flow.formAction.value, user.value, pass.value)];
      if flow.submitStatus.None? {
        return Err(HttpRequest);
      }
      if flow.submitStatus.value != 302 {
        return Err(Failure("Login failed - incorrect credentials?"));
      }
      if flow.redirectTokens.None? {
        return Err(HttpRequest);
      }
      UpdateAuthTokens(Received(flow.redirectTokens.value, now));
      r := Ok(());
    }

    method UpdateAuthTokens(t: AuthTokens)
      modifies this
      ensures State() == ClientSession.UpdateAuthTokens(old(State()), t)
    {
      authTokens := Some(t);
      authorization := ["Bearer " + t.accessToken];
    }

    method FlushCache()
      modifies cache.inner
      ensures State() == ClientSession.FlushCache(old(State()))
    {
      cache.Remove(Text("GetLocations"));
      cache.Remove(Text("GetAppliances"));
      cache.Remove(Text("GetNotifications"));
      assert cache.inner.entries == old(cache.inner.entries)
        - {Key(cache.namespace, Text("GetLocations")), Key(cache.namespace, Text("GetAppliances")),
           Key(cache.namespace, Text("GetNotifications"))};
    }

    method RefreshTokenIfNecessary() returns (r: Result<()>)
      modifies this
      ensures (State(), r) == ClientSession.RefreshTokenIfNecessary(old(State()), env)
    {
      if authTokens.None? {
        return Err(NullReference);
      }
      if !RefreshDue(authTokens.value, now) {
        return Ok(());
      }
      sent := sent + [TokenGrant(authTokens.value.refreshToken)];
      var grant := env.cloud(now).tokenGrant;
      if grant.None? {
        return Err(Json);
      }
      UpdateAuthTokens(Received(grant.value, now));
      r := Ok(());
    }

    method GetLocations() returns (r: Result<Dict<int, Location>>)
      modifies this, cache.inner
      ensures (State(), r) == ClientSession.GetLocations(old(State()), env)
    {
      var hit := cache.TryGetValue(Text("GetLocations"), now, IsLocations);
      if hit.Some? {
        return Ok(hit.value.locations);
      }
      var refreshed := RefreshTokenIfNecessary();
      if refreshed.Err? {
        return Err(refreshed.error);
      }
      var fetched := env.cloud(now).locations;
      if fetched.None? {
        return Err(HttpRequest);
      }
      var locations := ToDictionary(fetched.value, LocationId, LocationSelf);
      if locations.Err? {
        return Err(locations.error);
      }
      var stored := cache.FluentSet(Text("GetLocations"), LocationsValue(locations.value), CacheDuration, now);
      r := Ok(stored.locations);
    }

    method GetAppliances() returns (r: Result<Dict<string, Appliance>>)
      modifies this, cache.inner
      ensures (State(), r) == ClientSession.GetAppliances(old(State()), env)
    {
      var hit := cache.TryGetValue(Text("GetAppliances"), now, IsAppliances);
      if hit.Some? {
        return Ok(hit.value.appliances);
      }
      var refreshed := RefreshTokenIfNecessary();
      if refreshed.Err? {
        return Err(refreshed.error);
      }
      var locations := GetLocations();
      if locations.Err? {
        return Err(locations.error);
      }
      var appliances := FetchAppliances(env.cloud(now).inventory, Values(locations.value));
      if appliances.Err? {
        return Err(appliances.error);
      }
      var stored := cache.FluentSet(Text("GetAppliances"), AppliancesValue(appliances.value), CacheDuration, now);
      r := Ok(stored.appliances);
    }

    /** GetAppliances<T>(locationId, applianceId). */
    method GetAppliancesOf(c: ApplianceClass, locationId: Option<int>, applianceId: Option<string>)
      returns (r: Result<Dict<string, Appliance>>)
      modifies this, cache.inner
      ensures (State(), r) == ClientSession.GetAppliancesOf(old(State()), env, c, locationId, applianceId)
    {
      var all := GetAppliances();
      if all.Err? {
        return Err(all.error);
      }
      r := Ok(Select(all.value, c, locationId, applianceId));
    }

    /** The private GetNotifications(), cached under the slot named after GetAppliances. */
    method GetAllNotifications() returns (r: Result<Dict<string, Notification>>)
      modifies this, cache.inner
      ensures (State(), r) == ClientSession.GetAllNotifications(old(State()), env)
    {
      var hit := cache.TryGetValue(Text("GetAppliances"), now, IsNotifications);
      if hit.Some? {
        return Ok(hit.value.notifications);
      }
      var listed := ListNotifications();
      r := StoreNotifications(listed);
    }

    /** FluentSet of a generated listing under the GetAppliances slot. */
    method StoreNotifications(listed: Result<Dict<string, Notification>>) returns (r: Result<Dict<string, Notification>>)
      modifies cache.inner
      ensures (State(), r) == ClientSession.StoreNotifications((old(State()), listed), Slot(old(State()), "GetAppliances"))
    {
      if listed.Err? {
        return Err(listed.error);
      }
      var stored := cache.FluentSet(Text("GetAppliances"), NotificationsValue(listed.value), CacheDuration, now);
      r := Ok(stored.notifications);
    }

    /** The generator of the listing: the loop over the pages, after the locations and appliances. */
    method ListNotifications() returns (r: Result<Dict<string, Notification>>)
      modifies this, cache.inner
      ensures (State(), r) == ClientSession.ListNotifications(old(State()), env)
    {
      var refreshed := RefreshTokenIfNecessary();
      if refreshed.Err? {
        return Err(refreshed.error);
      }
      var locations := GetLocations();
      if locations.Err? {
        return Err(locations.error);
      }
      var appliances := GetAppliances();
      if appliances.Err? {
        return Err(appliances.error);
      }
      var ctx := Lookups(appliances.value, locations.value, env.messages);
      var requests;
      r, requests := FetchPages(env.cloud(now).pages, ctx);
    }

    method GetNotifications(locationId: Option<int>) returns (r: Result<Dict<string, Notification>>)
      modifies this, cache.inner
      ensures (State(), r) == ClientSession.GetNotifications(old(State()), env, locationId)
    {
      var all := GetAllNotifications();
      if all.Err? {
        return Err(all.error);
      }
      r := Ok(AtLocation(all.value, locationId));
    }

    method GetLatestNotificationId() returns (r: Result<Option<string>>)
      ensures r == ClientSession.GetLatestNotificationId(State(), env)
    {
      var page := env.cloud(now).latest;
      if page.None? {
        return Err(HttpRequest);
      }
      r := LatestId(page.value);
    }

    method GetAggregatedData(applianceId: string, aggregation: Aggregation, from: int, to: int)
      returns (r: Result<Option<AggregateData>>)
      modifies this, cache.inner
      ensures (State(), r) == ClientSession.GetAggregatedData(old(State()), env, applianceId, aggregation, from, to)
    {
      var key := Text("GetAggregatedData|" + applianceId);
      var hit := cache.TryGetValue(key, now, IsAggregate);
      if hit.Some? {
        return Ok(hit.value.data);
      }
      var fetched := FetchAggregatedData(applianceId, aggregation, from, to);
      r := StoreAggregate(key, fetched);
    }

    /** FluentSet of generated data under `key`. */
    method StoreAggregate(key: CacheKey, fetched: Result<Option<AggregateData>>) returns (r: Result<Option<AggregateData>>)
      modifies cache.inner
      ensures (State(), r) == ClientSession.StoreAggregate((old(State()), fetched), Key(cache.namespace, key))
    {
      if fetched.Err? {
        return Err(fetched.error);
      }
      var stored := cache.FluentSet(key, AggregateValue(fetched.value), CacheDuration, now);
      r := Ok(stored.data);
    }

    /** The generator of GetAggregatedData. */
    method FetchAggregatedData(applianceId: string, aggregation: Aggregation, from: int, to: int)
      returns (r: Result<Option<AggregateData>>)
      modifies this, cache.inner
      ensures (State(), r) == ClientSession.FetchAggregatedData(old(State()), env, applianceId, aggregation, from, to)
    {
      var refreshed := RefreshTokenIfNecessary();
      if refreshed.Err? {
        return Err(refreshed.error);
      }
      var all := GetAppliancesOf(AnyAppliance, None, None);
      if all.Err? {
        return Err(all.error);
      }
      var appliance := Get(all.value, applianceId);
      if appliance.None? {
        return Ok(None);
      }
      var a := appliance.value;
      var query := AggregateQuery(a.location.id, a.room.id, a.id, aggregation, from, to);
      if query !in env.cloud(now).aggregates {
        return Err(HttpRequest);
      }
      r := Ok(Some(env.cloud(now).aggregates[query]));
    }

    /**
     * The polling loop of SnoozeGuard (`asleep`) and WakeGuard (`!asleep`): until the timeout,
     * flush, refetch the guard and stop once its snooze state is the one awaited, else wait
     * five seconds times a multiplier that grows by one each round.
     */
    method AwaitGuard(applianceId: string, asleep: bool) returns (r: Result<bool>)
      modifies this, cache.inner
      ensures (State(), r) == Await(old(State()), env, applianceId, old(now) + SnoozeTimeout, 1, asleep)
    {
      var timeout := now + SnoozeTimeout;
      var delayMultiplier := 1;
      ghost var outcome := Await(State(), env, applianceId, timeout, 1, asleep);
      while now < timeout
        invariant delayMultiplier >= 1
        invariant Await(State(), env, applianceId, timeout, delayMultiplier, asleep) == outcome
        decreases timeout - now
      {
        var done, result := PollRound(applianceId, timeout, delayMultiplier, asleep);
        if done {
          return result;
        }
        delayMultiplier := delayMultiplier + 1;
      }
      r := Ok(false);
    }

    /** One round of the polling loop: flush, refetch, check, and wait when the check fails. */
    method PollRound(applianceId: string, timeout: int, delayMultiplier: int, asleep: bool) returns (done: bool, r: Result<bool>)
      requires delayMultiplier >= 1 && now < timeout
      modifies this, cache.inner
      ensures done ==> (State(), r) == Await(old(State()), env, applianceId, timeout, delayMultiplier, asleep)
      ensures !done ==> now >= old(now) + SnoozeRefreshDelay
      ensures !done ==>
                Await(old(State()), env, applianceId, timeout, delayMultiplier, asleep)
                == Await(State(), env, applianceId, timeout, delayMultiplier + 1, asleep)
    {
      AwaitRound(State(), env, applianceId, timeout, delayMultiplier, asleep);
      FlushCache();
      var guards := GetAppliancesOf(SenseGuardAppliance, None, None);
      if guards.Err? {
        return true, Err(guards.error);
      }
      var guard := Get(guards.value, applianceId);
      if guard.None? {
        return true, Err(KeyNotFound);
      }
      if guard.value.snoozedUntil.Some? == asleep {
        return true, Ok(true);
      }
      ghost var observed := State();
      AwaitWait(observed, guards.value, env, applianceId, timeout, delayMultiplier, asleep);
      now := now + SnoozeRefreshDelay * delayMultiplier;
      delays := delays + [SnoozeRefreshDelay * delayMultiplier];
      assert State() == Delay(observed, SnoozeRefreshDelay * delayMultiplier);
      done, r := false, Ok(false);
    }

    method WakeGuard(applianceId: string) returns (r: Result<bool>)
      modifies this, cache.inner
      ensures (State(), r) == ClientSession.WakeGuard(old(State()), env, applianceId)
    {
      var refreshed := RefreshTokenIfNecessary();
      if refreshed.Err? {
        return Err(refreshed.error);
      }
      r := WakeAttempt(applianceId);
      FlushCache();
    }

    /** The try block of WakeGuard. */
    method WakeAttempt(applianceId: string) returns (r: Result<bool>)
      modifies this, cache.inner
      ensures (State(), r) == ClientSession.WakeAttempt(old(State()), env, applianceId)
    {
      var guards := GetAppliancesOf(SenseGuardAppliance, None, None);
      if guards.Err? {
        return Err(guards.error);
      }
      var guard := Get(guards.value, applianceId);
      if guard.None? {
        return Ok(false);
      }
      r := Wake(applianceId, guard.value);
    }

    /** The DELETE of the snooze, then the wait for the guard to wake up. */
    method Wake(applianceId: string, g: Appliance) returns (r: Result<bool>)
      modifies this, cache.inner
      ensures (State(), r) == ClientSession.Wake(old(State()), env, applianceId, g)
    {
      var request := SnoozeDelete(g.location.id, g.room.id, g.id);
      sent := sent + [request];
      ghost var s1 := State();
      assert s1 == Send(old(State()), request);
      var answer := env.cloud(now).accepts(request);
      if answer.None? {
        return Err(HttpRequest);
      }
      if !answer.value {
        return Ok(false);
      }
      ghost var outcome := Await(s1, env, applianceId, now + SnoozeTimeout, 1, false);
      assert ClientSession.Wake(old(State()), env, applianceId, g) == outcome;
      r := AwaitGuard(applianceId, false);
      assert (State(), r) == outcome;
    }

    method SnoozeGuard(applianceId: string, minutes: int) returns (r: Result<bool>)
      modifies this, cache.inner
      ensures (State(), r) == ClientSession.SnoozeGuard(old(State()), env, applianceId, minutes)
    {
      var refreshed := RefreshTokenIfNecessary();
      if refreshed.Err? {
        return Err(refreshed.error);
      }
      r := SnoozeAttempt(applianceId, minutes);
      FlushCache();
    }

    /** The try block of SnoozeGuard. */
    method SnoozeAttempt(applianceId: string, minutes: int) returns (r: Result<bool>)
      modifies this, cache.inner
      ensures (State(), r) == ClientSession.SnoozeAttempt(old(State()), env, applianceId, minutes)
    {
      var guards := GetAppliancesOf(SenseGuardAppliance, None, None);
      if guards.Err? {
        return Err(guards.error);
      }
      var guard := Get(guards.value, applianceId);
      if guard.None? {
        return Ok(false);
      }
      var g := guard.value;
      if g.snoozedUntil.Some? {
        var woke := WakeGuard(applianceId);
        if woke.Err? {
          return Err(woke.error);
        }
        if !woke.value {
          return Ok(false);
        }
      }
      r := Snooze(applianceId, g, minutes);
    }

    /** The PUT of the snooze command, then the wait for the guard to fall asleep. */
    method Snooze(applianceId: string, g: Appliance, minutes: int) returns (r: Result<bool>)
      modifies this, cache.inner
      ensures (State(), r) == ClientSession.Snooze(old(State()), env, applianceId, g, minutes)
    {
      var request := SnoozePut(g.location.id, g.room.id, g.id, minutes);
      sent := sent + [request];
      ghost var s1 := State();
      assert s1 == Send(old(State()), request);
      var answer := env.cloud(now).accepts(request);
      if answer.None? {
        return Err(HttpRequest);
      }
      if !answer.value {
        return Ok(false);
      }
      ghost var outcome := Await(s1, env, applianceId, now + SnoozeTimeout, 1, true);
      assert ClientSession.Snooze(old(State()), env, applianceId, g, minutes) == outcome;
      r := AwaitGuard(applianceId, true);
      assert (State(), r) == outcome;
    }

    method GetCommand(a: Appliance) returns (r: Result<SenseGuardCommand>)
      ensures r == ClientSession.GetCommand(State(), env, a)
    {
      var path := (a.location.id, a.room.id, a.id);
      if path !in env.cloud(now).commands {
        return Err(HttpRequest);
      }
      var command := env.cloud(now).commands[path];
      command := command.(commandBase64 := None);
      command := command.(timestamp := None);
      r := Ok(command);
    }

    method SetValveOpen(applianceId: string, open: bool) returns (r: Result<bool>)
      modifies this, cache.inner
      ensures (State(), r) == ClientSession.SetValveOpen(old(State()), env, applianceId, open)
    {
      var refreshed := RefreshTokenIfNecessary();
      if refreshed.Err? {
        return Err(refreshed.error);
      }
      r := SetValveAttempt(applianceId, open);
      FlushCache();
    }

    /** The try block of SetValveOpen. */
    method SetValveAttempt(applianceId: string, open: bool) returns (r: Result<bool>)
      modifies this, cache.inner
      ensures (State(), r) == ClientSession.SetValveAttempt(old(State()), env, applianceId, open)
    {
      var guards := GetAppliancesOf(SenseGuardAppliance, None, None);
      if guards.Err? {
        return Err(guards.error);
      }
      var guard := Get(guards.value, applianceId);
      if guard.None? {
        return Ok(false);
      }
      var g := guard.value;
      var command := GetCommand(g);
      if command.Err? {
        return Err(command.error);
      }
      var postCommand := command.value.(command := command.value.command.(valveOpen := open));
      var request := CommandPost(g.location.id, g.room.id, g.id, postCommand);
      sent := sent + [request];
      r := Status(env.cloud(now).accepts(request));
    }

    method GetValveOpen(applianceId: string) returns (r: Result<bool>)
      modifies this, cache.inner
      ensures (State(), r) == ClientSession.GetValveOpen(old(State()), env, applianceId)
    {
      var refreshed := RefreshTokenIfNecessary();
      if refreshed.Err? {
        return Err(refreshed.error);
      }
      var guards := GetAppliancesOf(SenseGuardAppliance, None, None);
      if guards.Err? {
        return Err(guards.error);
      }
      var guard := Get(guards.value, applianceId);
      if guard.None? {
        return Ok(false);
      }
      var command := GetCommand(guard.value);
      if command.Err? {
        return Err(command.error);
      }
      r := Ok(command.value.command.valveOpen);
    }

    method MarkNotificationAsRead(notification: Notification) returns (r: Result<bool>)
      modifies this, cache.inner
      ensures (State(), r) == ClientSession.MarkNotificationAsRead(old(State()), env, notification)
    {
      var refreshed := RefreshTokenIfNecessary();
      if refreshed.Err? {
        return Err(refreshed.error);
      }
      var n := notification.raw;
      var request := ReadPut(n.id, NotificationReadCommand(n.applianceId, n.category, n.notificationType, n.id, n.timestamp));
      sent := sent + [request];
      r := Status(env.cloud(now).accepts(request));
      FlushCache();
    }

    method DeleteNotification(notificationId: string) returns (r: Result<bool>)
      modifies this, cache.inner
      ensures (State(), r) == ClientSession.DeleteNotification(old(State()), env, notificationId)
    {
      var refreshed := RefreshTokenIfNecessary();
      if refreshed.Err? {
        return Err(refreshed.error);
      }
      var request := NotificationDelete(notificationId);
      sent := sent + [request];
      r := Status(env.cloud(now).accepts(request));
      FlushCache();
    }
  }
}
