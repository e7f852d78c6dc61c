# Grohe gateway core in Dafny

This project models the sequential core of the Grohe Sense gateway, an ASP.NET service that
logs into the Grohe cloud as the mobile app would and offers a small REST API over it. The
core covers:

- the `ApiClient` session, with its token refresh, its namespaced read-through cache of
  locations, appliances, notifications and aggregated data, the snooze and wake polling loops,
  and the valve and notification commands;
- `NamespacedMemoryCache` and its extension methods;
- the FIFO lock queue in front of the one `ApiClient`;
- the refresh arithmetic of `AuthTokens`, and the type classification and status map of
  `BaseAppliance`;
- the decision rules of the Snooze, Valve, Notifications, Maintenance, Data and Health
  controllers;
- the Basic authentication handler and the configuration fallback of `GetString`.

How the model is built:

- **The cloud is an input.** `ClientSession.Environment` gives, for each clock reading, what
  every GET answers, which state-changing requests the cloud accepts, and the token grant. A
  missing answer stands for a request that throws.
- **The clock is an integer.** It counts seconds and moves only through `Task.Delay`.
- **The client is a class.** `Client.ApiClient` is a class whose fields the methods update in
  place. Each method is proved to end in the state, and return the outcome, that the
  `ClientSession` function of the same name computes. `ClientLaws` proves what those functions
  promise.
- **The controllers see the client through its answers.** They take what `GetAppliances<T>`,
  `GetNotifications` and `GetAggregatedData` returned, and the guard, valve and notification
  calls are functions of the appliance id. Each action is a function or method returning a
  `Replies.Reply` or the exception that leaves it. Where the order of calls matters, the model
  also returns the log of calls the action made.
- **Exceptions are values.** .NET dictionaries are insertion-ordered association lists
  (`Dictionaries.Dict`). Exceptions are `Wrappers.Result` errors named after the .NET
  exception kind.

These behaviours of the source are kept as written:

- The notification listing is cached under the key named after `GetAppliances`, so each
  listing and the appliance dictionary evict one another.
- `FlushCache` removes a key that nothing writes.
- The aggregated-data key ignores the aggregation and the dates.

## Model

| member | source | states |
|---|---|---|
| Client.ApiClient.constructor | dotnet/Application/ApiClient.cs:46-50 | the cache is wrapped in the namespace "<assembly>\|ApiClient"; there is no token, no header, no delay and no request yet |
| Client.ApiClient.Login | dotnet/Application/ApiClient.cs:82-121 | ends in the state and outcome of `ClientSession.Login`, whose meaning ClientLaws.LoginSpec states |
| Client.ApiClient.UpdateAuthTokens | dotnet/Application/ApiClient.cs:123-128 | replaces the token object and leaves exactly one Authorization header, "Bearer " + access token; nothing else changes |
| Client.ApiClient.FlushCache | dotnet/Application/ApiClient.cs:130-135 | removes the three namespaced slots and nothing else (see ClientLaws.FlushSpec) |
| Client.ApiClient.RefreshTokenIfNecessary | dotnet/Application/ApiClient.cs:515-530 | ends in the state and outcome of `ClientSession.RefreshTokenIfNecessary` (see ClientLaws.RefreshSpec) |
| Client.ApiClient.GetLocations | dotnet/Application/ApiClient.cs:137-147 | ends in the state and outcome of `ClientSession.GetLocations`: a read-through of the locations slot |
| Client.ApiClient.GetAppliances | dotnet/Application/ApiClient.cs:149-201 | ends in the state and outcome of `ClientSession.GetAppliances`: a read-through of the appliances slot whose generator runs the nested foreach loops |
| Client.ApiClient.GetAppliancesOf | dotnet/Application/ApiClient.cs:532-538 | ends in the state and outcome of `ClientSession.GetAppliancesOf`: GetAppliances, then the three filters |
| Client.ApiClient.GetAllNotifications | dotnet/Application/ApiClient.cs:204-251 | ends in the state and outcome of the private GetNotifications: a read-through under the slot named after GetAppliances |
| Client.ApiClient.StoreNotifications | dotnet/Application/ApiClient.cs:205-251 | a generated listing is stored under the GetAppliances slot for ten minutes and returned; a thrown generator stores nothing |
| Client.ApiClient.ListNotifications | dotnet/Application/ApiClient.cs:209-248 | ends in the state and outcome of the generator: token refresh, locations, appliances, then the do-while loop over the pages |
| Client.ApiClient.GetNotifications | dotnet/Application/ApiClient.cs:253-256 | ends in the state and outcome of `ClientSession.GetNotifications`: every notification, or those of one location |
| Client.ApiClient.GetLatestNotificationId | dotnet/Application/ApiClient.cs:258-265 | returns the id of the first notification of a one-element page, with no cache and no token refresh, and changes nothing |
| Client.ApiClient.GetAggregatedData | dotnet/Application/ApiClient.cs:305-326 | ends in the state and outcome of `ClientSession.GetAggregatedData`: a read-through keyed by appliance id only |
| Client.ApiClient.StoreAggregate | dotnet/Application/ApiClient.cs:305-326 | generated data, or null, is stored for ten minutes and returned; a thrown generator stores nothing |
| Client.ApiClient.FetchAggregatedData | dotnet/Application/ApiClient.cs:307-324 | ends in the state and outcome of the generator: null for an appliance not found, else the cloud's data |
| Client.ApiClient.AwaitGuard | dotnet/Application/ApiClient.cs:364-381 | the while loop ends in the state and outcome of `ClientSession.Await` from multiplier 1, with a deadline 180 s after the start |
| Client.ApiClient.PollRound | dotnet/Application/ApiClient.cs:367-378 | one round: stops with Await's outcome, or waits 5 s × multiplier and continues with the next multiplier |
| Client.ApiClient.WakeGuard | dotnet/Application/ApiClient.cs:389-433 | ends in the state and outcome of `ClientSession.WakeGuard`: refresh, then the try block, then a flush on every exit |
| Client.ApiClient.WakeAttempt | dotnet/Application/ApiClient.cs:394-428 | false for a missing guard; otherwise the DELETE and the wait |
| Client.ApiClient.Wake | dotnet/Application/ApiClient.cs:403-427 | false when the DELETE is refused, an HttpRequestException when it throws; otherwise the wait for SnoozedUntil to become null |
| Client.ApiClient.SnoozeGuard | dotnet/Application/ApiClient.cs:328-387 | ends in the state and outcome of `ClientSession.SnoozeGuard`: refresh, then the try block, then a flush on every exit |
| Client.ApiClient.SnoozeAttempt | dotnet/Application/ApiClient.cs:332-382 | false for a missing guard, or for a snoozed guard that cannot be woken first; otherwise the PUT and the wait |
| Client.ApiClient.Snooze | dotnet/Application/ApiClient.cs:352-381 | false when the PUT is refused, an HttpRequestException when it throws; otherwise the wait for SnoozedUntil to become non-null |
| Client.ApiClient.GetCommand | dotnet/Application/ApiClient.cs:507-513 | returns `ClientSession.GetCommand` and changes nothing; ClientLaws.GetCommandSpec states its meaning |
| Client.ApiClient.SetValveOpen | dotnet/Application/ApiClient.cs:435-465 | ends in the state and outcome of `ClientSession.SetValveOpen`: refresh, then the try block that ClientLaws.SetValveSpec states, then the flush (ClientLaws.MutationsFlush) |
| Client.ApiClient.SetValveAttempt | dotnet/Application/ApiClient.cs:440-460 | ends in the state and outcome of `ClientSession.SetValveAttempt`, whose meaning ClientLaws.SetValveSpec states |
| Client.ApiClient.GetValveOpen | dotnet/Application/ApiClient.cs:467-481 | ends in the state and outcome of `ClientSession.GetValveOpen`, whose meaning ClientLaws.GetValveOpenSpec states |
| Client.ApiClient.MarkNotificationAsRead | dotnet/Application/ApiClient.cs:483-505 | sends the read command for the notification, returns whether it was accepted or throws when the PUT throws, and always flushes |
| Client.ApiClient.DeleteNotification | dotnet/Application/ApiClient.cs:540-560 | sends the DELETE, returns whether it was accepted or throws when the DELETE throws, and always flushes |
| ClientSession.RefreshTokenIfNecessary | dotnet/Application/ApiClient.cs:515-530 | no wait, and the cache entries are untouched |
| ClientSession.GetLocations | dotnet/Application/ApiClient.cs:137-147 | no wait, and no cache entry other than the locations slot changes |
| ClientSession.GetAppliances | dotnet/Application/ApiClient.cs:149-201 | no wait, and only the locations and appliances slots change |
| ClientSession.GetAppliancesOf | dotnet/Application/ApiClient.cs:532-538 | no wait, and only the locations and appliances slots change |
| ClientSession.GetAllNotifications | dotnet/Application/ApiClient.cs:204-251 | no wait, and only the locations and appliances slots change, because the listing is stored in the latter |
| ClientSession.StoreNotifications | dotnet/Application/ApiClient.cs:205-251 | returns the generated outcome; stores the listing under the key for the cache duration on success, and stores nothing on an exception |
| ClientSession.ListNotifications | dotnet/Application/ApiClient.cs:209-248 | no wait, and only the locations and appliances slots change |
| ClientSession.GetNotifications | dotnet/Application/ApiClient.cs:253-256 | no wait |
| ClientSession.Backoff | dotnet/Application/ApiClient.cs:377 | the i-th wait from a multiplier is 5 s × (multiplier + i) |
| ClientSession.BackoffStep | dotnet/Application/ApiClient.cs:377 | one wait followed by the back-off from the next multiplier is the back-off one step longer, and so is its sum |
| ClientSession.WaitedStep | dotnet/Application/ApiClient.cs:366-378 | waiting at one multiplier and then the back-off from the next is the back-off from the first |
| ClientSession.Await | dotnet/Application/ApiClient.cs:364-381 | the session waited exactly the back-off 5, 10, 15, … s and the clock moved by their sum; true only from a check made before the deadline, false only once the deadline has passed |
| ClientSession.AwaitObserved | dotnet/Application/ApiClient.cs:370-377 | the same bounds for a check on freshly fetched guards |
| ClientSession.AwaitRound | dotnet/Application/ApiClient.cs:367-371 | a round before the deadline flushes, refetches the SenseGuards and then checks them |
| ClientSession.AwaitWait | dotnet/Application/ApiClient.cs:371-377 | a guard found in the other state makes the loop wait 5 s × multiplier and start the next round with multiplier + 1 |
| ClientSession.GetValveOpen | dotnet/Application/ApiClient.cs:467-481 | no wait |
| ClientSession.Status | dotnet/Application/ApiClient.cs:357-358 | a state-changing request answers whether its status was a success; a request that throws gives an HttpRequestException |
| ClientSession.GetAggregatedData | dotnet/Application/ApiClient.cs:305-326 | no wait, and only the locations, appliances and "GetAggregatedData\|id" slots change |
| ClientSession.StoreAggregate | dotnet/Application/ApiClient.cs:305-326 | returns the generated outcome; stores the data, or null, on success, and stores nothing on an exception |
| ClientSession.FetchAggregatedData | dotnet/Application/ApiClient.cs:307-324 | no wait, and only the locations and appliances slots change |
| ClientLaws.RefreshSpec | dotnet/Application/ApiClient.cs:515-530 | no token throws NullReference; a token whose RefreshAt lies ahead is left alone; a due one is exchanged once for the grant, stamped now, with exactly one "Bearer" header; an unreadable answer throws |
| ClientLaws.RefreshSettles | dotnet/Application/GroheApiClasses/AuthTokens.cs:22-26 | a token just installed, with a lifetime of at least 2 s, is not refreshed again at the same instant |
| ClientLaws.FlushSpec | dotnet/Application/ApiClient.cs:130-135 | after FlushCache none of the three slots holds an entry, and every other key is as it was |
| ClientLaws.LocationsHit | dotnet/Application/Utils/NamespacedMemoryCache.cs:46-57 | a typed hit on the locations slot answers from the cache: nothing is sent and the session does not change |
| ClientLaws.LocationsReadThrough | dotnet/Application/ApiClient.cs:137-147 | a miss returns the fetched locations keyed by id, and a second call within ten minutes answers with the same dictionary |
| ClientLaws.AppliancesFromGraph | dotnet/Application/ApiClient.cs:149-201 | a miss returns the appliance graph over the locations' values, each appliance of a known type under its own id, with its room, location and status |
| ClientLaws.NotificationsShareAppliancesSlot | dotnet/Application/ApiClient.cs:204-206 | once a listing is cached, GetAppliances misses and fetches again |
| ClientLaws.AppliancesEvictNotifications | dotnet/Application/ApiClient.cs:149-151 | once the appliances are cached, the next listing misses |
| ClientLaws.NothingWritesNotificationsSlot | dotnet/Application/ApiClient.cs:134 | no fetch ever changes the slot named after GetNotifications |
| ClientLaws.NotificationsSlotDistinct | dotnet/Application/ApiClient.cs:130-135 | that slot differs from every slot a fetch writes |
| ClientLaws.AggregatedKeyIgnoresQuery | dotnet/Application/ApiClient.cs:305-306 | once filled, a request for the same id with another aggregation or date range gets the data cached for the first |
| ClientLaws.SelectSpec | dotnet/Application/ApiClient.cs:532-538 | the filters only remove entries: an entry is kept exactly when it was there, is of the type, has the id and is at the location asked for, and keys stay unique |
| ClientLaws.LoginSpec | dotnet/Application/ApiClient.cs:82-121 | an error status on the login page returns quietly and changes nothing; a GET that throws, no form action, or an unusable GROHE_USER or GROHE_PASS throws with nothing posted; otherwise the configured credentials are posted once, and the call succeeds exactly on a 302 whose redirect yields tokens, which are installed, stamped now, with one bearer header; a failure keeps the old tokens |
| ClientLaws.GetCommandSpec | dotnet/Application/ApiClient.cs:507-513 | found exactly when the cloud answers for the guard's path; the same id, type and settings, with CommandBase64 and Timestamp cleared; otherwise an HttpRequestException |
| ClientLaws.SetValveSpec | dotnet/Application/ApiClient.cs:440-460 | a guard not found gives false with nothing posted; for a found guard exactly one request is posted, the current command with only ValveOpen set and the echo fields cleared, and the result is whether the cloud accepted it, or an exception when the command cannot be read or the POST throws |
| ClientLaws.GetValveOpenSpec | dotnet/Application/ApiClient.cs:467-481 | a failed refresh throws; a guard not found gives false; otherwise ValveOpen of the stored command, or an exception when it cannot be read; nothing is posted |
| ClientLaws.ValveRoundTrip | dotnet/Application/ApiClient.cs:435-513 | once the cloud holds the command SetValveOpen posts, GetCommand reads back exactly that command and GetValveOpen answers the state that was set |
| ClientLaws.MutationsFlush | dotnet/Application/ApiClient.cs:328-560 | SnoozeGuard, WakeGuard, SetValveOpen, MarkNotificationAsRead and DeleteNotification end with the three slots flushed whenever the refresh succeeded, whatever the outcome; a failed refresh throws before the try |
| NamespacedCache.Namespace | dotnet/Application/Utils/NamespacedMemoryCache.cs:12 | the assembly name, a '\|' and the namespace |
| NamespacedCache.Key | dotnet/Application/Utils/NamespacedMemoryCache.cs:22-23 | the namespace, a '\|' and the key text: a string verbatim, other keys as JSON |
| NamespacedCache.KeyInjective | dotnet/Application/Utils/NamespacedMemoryCache.cs:22 | within a namespace, distinct string keys have distinct underlying keys |
| NamespacedCache.NamespacesSeparate | dotnet/Application/Utils/NamespacedMemoryCache.cs:12-22 | two different namespaces without '\|' never share an underlying key |
| NamespacedCache.TypedLookup | dotnet/Application/Utils/NamespacedMemoryCache.cs:48 | a hit exactly when a live entry holds a value of the requested type, and then that value |
| NamespacedCache.NamespacedMemoryCache.constructor | dotnet/Application/Utils/NamespacedMemoryCache.cs:10-12 | wraps the given cache under the namespace "<assembly>\|<namespace>" |
| NamespacedCache.NamespacedMemoryCache.Remove | dotnet/Application/Utils/NamespacedMemoryCache.cs:27 | deletes only the namespaced key; an absent key changes nothing |
| NamespacedCache.NamespacedMemoryCache.FluentSet | dotnet/Application/Utils/NamespacedMemoryCache.cs:40-44 | stores the value under the namespaced key until now + lifeSpan and returns it unchanged |
| NamespacedCache.NamespacedMemoryCache.GetOrRefresh | dotnet/Application/Utils/NamespacedMemoryCache.cs:46-57 | the generator is invoked exactly on a typed miss; a hit returns the stored value and changes nothing; a miss stores and returns the generated value; a throwing generator stores nothing |
| NamespacedCache.WithNamespace | dotnet/Application/Utils/NamespacedMemoryCache.cs:59-62 | throws ArgumentException exactly for a cache that already has a namespace, and otherwise wraps it |
| NamespacedCache.SetThenLookup | dotnet/Application/Utils/NamespacedMemoryCache.cs:40-48 | a stored value is found until its expiry time and missed from then on |
| LockQueue.EnqueueSpec | dotnet/Application/Utils/ApiClientLockQueue.cs:30-37 | a new waiter is granted at once exactly when the queue was empty; it joins the tail and the queue stays consistent |
| LockQueue.DequeueSpec | dotnet/Application/Utils/ApiClientLockQueue.cs:45-52 | releasing removes exactly the head and grants exactly the next waiter; an empty queue throws InvalidOperation |
| LockQueue.SingleHolder | dotnet/Application/Utils/ApiClientLockQueue.cs:33-51 | only the head of the queue has been granted |
| LockQueue.GrantsInOrder | dotnet/Application/Utils/ApiClientLockQueue.cs:24-50 | the k-th grant goes to the k-th ticket issued |
| LockQueue.ReleaseThenAcquire | dotnet/Application/Utils/ApiClientLockQueue.cs:47-51 | after the only holder releases, the next GetLock is granted at once |
| LockQueue.ApiClientLockQueue.constructor | dotnet/Application/Utils/ApiClientLockQueue.cs:22-24 | an empty, consistent queue |
| LockQueue.ApiClientLockQueue.GetLock | dotnet/Application/Utils/ApiClientLockQueue.cs:26-40 | enqueues a fresh ticket, granted as EnqueueSpec says, and returns an undisposed lock that owns it |
| LockQueue.ApiClientLockQueue.ReleaseLock | dotnet/Application/Utils/ApiClientLockQueue.cs:42-53 | performs the dequeue, or throws InvalidOperation on an empty queue and changes nothing |
| LockQueue.Lock.constructor | dotnet/Application/Utils/ApiClientLockQueue.cs:6-11 | a lock on its queue and ticket, not yet disposed |
| LockQueue.Lock.DisposeAsync | dotnet/Application/Utils/ApiClientLockQueue.cs:13-18 | the first dispose releases the queue once; any later dispose changes nothing |
| LockQueue.Scoped | dotnet/Application/Controllers/SnoozeController.cs:18 | `await using` on a queue nobody holds is granted at once and leaves the queue empty again, with one more grant |
| Tokens.HalfTowardZero | dotnet/Application/GroheApiClasses/AuthTokens.cs:26 | C# long division by 2, truncated toward zero |
| Tokens.RefreshAt | dotnet/Application/GroheApiClasses/AuthTokens.cs:22-26 | half the lifetime, rounded down, after creation; between CreatedAt and CreatedAt + ExpiresIn |
| Tokens.RefreshDueWhen | dotnet/Application/GroheApiClasses/AuthTokens.cs:22-26 | a token with a non-negative lifetime is due exactly once twice its age, plus one, reaches its lifetime |
| Tokens.FreshTokenNotDue | dotnet/Application/ApiClient.cs:517 | a token just received with a lifetime of at least 2 s is not due |
| Appliances.Classify | dotnet/Application/GroheApiClasses/BaseAppliance.cs:60 | either Unknown or the member whose code is the value |
| Appliances.ClassifyCodes | dotnet/Application/GroheApiClasses/BaseAppliance.cs:76-81 | classification inverts the codes; only 101 (Sense) and 103 (SenseGuard) are known |
| Appliances.Read | dotnet/Application/GroheApiClasses/BaseAppliance.cs:53-68 | succeeds exactly for a 32-bit numeric "type"; keeps the raw code and raw text; classifies the code; a missing "type" throws KeyNotFound |
| Appliances.Write | dotnet/Application/GroheApiClasses/BaseAppliance.cs:70-73 | always throws NotImplemented |
| Appliances.ReadUnknownCode | dotnet/Application/GroheApiClasses/BaseAppliance.cs:59-65 | an unlisted code still reads, as Unknown, with the code kept |
| Appliances.StatusMapSpec | dotnet/Application/GroheApiClasses/BaseAppliance.cs:45-48 | SetStatus succeeds exactly when no type repeats, and then maps each type, in order, to its value; otherwise it throws DuplicateKey |
| Appliances.StatusMapGet | dotnet/Application/GroheApiClasses/BaseAppliance.cs:47 | every listed status is found under its type |
| Appliances.StatusMapDuplicate | dotnet/Application/GroheApiClasses/BaseAppliance.cs:47 | any status list naming a type at two positions throws DuplicateKey |
| ApplianceGraph.ReadAll | dotnet/Application/ApiClient.cs:163-164 | the list reads exactly when every element reads, element by element |
| ApplianceGraph.GraphSpec | dotnet/Application/ApiClient.cs:156-198 | the graph is built exactly when every request succeeds and no id repeats, and is then the known appliances keyed by id |
| ApplianceGraph.KnownSound | dotnet/Application/ApiClient.cs:165-193 | every appliance listed is of a known type read from its element, with its own room, location and status |
| ApplianceGraph.GraphSound | dotnet/Application/ApiClient.cs:158-198 | the graph's keys are unique and each is the id of a well-formed appliance from the cloud |
| ApplianceGraph.FetchAppliances | dotnet/Application/ApiClient.cs:158-196 | the nested loops compute the graph |
| NotificationFeed.Enrich | dotnet/Application/ApiClient.cs:229-240 | the message of (category, type); the appliance name and type, or "Unknown Appliance" and Unknown; the location name, or "Unknown Location" |
| NotificationFeed.Entries | dotnet/Application/ApiClient.cs:229-241 | one enriched write per notification of the page |
| NotificationFeed.PaginateRequests | dotnet/Application/ApiClient.cs:216-246 | the first request uses the page size for what is listed so far and the current token; each later one carries the token of a page that asked for more |
| NotificationFeed.PaginateSmallPages | dotnet/Application/ApiClient.cs:218-221 | once something is listed, every request asks for 10 |
| NotificationFeed.PaginateStops | dotnet/Application/ApiClient.cs:243-246 | a successful listing ends at a page with remaining_notifications 0 or no token |
| NotificationFeed.PaginateResult | dotnet/Application/ApiClient.cs:216-246 | a successful listing holds the writes of every fetched page, in order, with later pages overwriting earlier ids |
| NotificationFeed.PaginateStep | dotnet/Application/ApiClient.cs:243-246 | a page asking for more is followed by a request with its token |
| NotificationFeed.PaginateStop | dotnet/Application/ApiClient.cs:243-246 | a page asking for nothing more ends the listing with its writes |
| NotificationFeed.ListingKeys | dotnet/Application/ApiClient.cs:214-248 | the first request asks for 20 with no token; each id appears once and maps to the last notification written under it |
| NotificationFeed.ApplyPage | dotnet/Application/ApiClient.cs:229-241 | the foreach performs the page's indexer writes in order |
| NotificationFeed.FetchPage | dotnet/Application/ApiClient.cs:216-246 | one round either ends with the listing's outcome or continues from the next page with the new token |
| NotificationFeed.FetchPages | dotnet/Application/ApiClient.cs:214-248 | the do-while loop computes the listing and the requests it sends |
| NotificationFeed.AtLocationSpec | dotnet/Application/ApiClient.cs:253-256 | the location filter only removes entries and keeps exactly those of the location |
| NotificationFeed.LatestId | dotnet/Application/ApiClient.cs:263-264 | the id of the first notification, null for none; a missing list throws |
| Extensions.GetString | dotnet/Application/Utils/Extensions.cs:9-17 | succeeds exactly when the configured value or the default is usable, never returns a blank string, and otherwise throws ArgumentException |
| Extensions.ConfiguredValueWins | dotnet/Application/Utils/Extensions.cs:11-13 | a usable configured value is returned whatever the default |
| Extensions.BlankValueFallsBack | dotnet/Application/Utils/Extensions.cs:14-15 | a missing or blank value falls back to a usable default |
| BasicAuth.SplitCredentials | dotnet/Application/Auth/BasicAuthHandler.cs:40 | two pieces exactly when there is a colon, split at the first one, so the pieces joined with ':' give the text back |
| BasicAuth.SplitJoined | dotnet/Application/Auth/BasicAuthHandler.cs:40 | a colon-free user and any password, once joined, split back into the two |
| BasicAuth.Authenticate | dotnet/Application/Auth/BasicAuthHandler.cs:21-70 | NoResult exactly for no header or a scheme other than "Basic"; no colon fails; every failure says "Invalid credentials"; exceptions come only from a missing parameter, the decoding or the settings |
| BasicAuth.SuccessSpec | dotnet/Application/Auth/BasicAuthHandler.cs:39-69 | success exactly when a Basic header decodes to API_USER ":" API_PASS and the user has no colon; the ticket's one claim is Name = that user |
| BasicAuth.WrongUserFails | dotnet/Application/Auth/BasicAuthHandler.cs:49-52 | a wrong user name fails, even when API_PASS could not be read |
| SnoozeControl.GetApiModel | dotnet/Application/Controllers/SnoozeController.cs:67-78 | snoozing exactly when SnoozedUntil is later than now; then the end time and the seconds left, otherwise null and 0 |
| SnoozeControl.Apply | dotnet/Application/Controllers/SnoozeController.cs:43-60 | at least one minute calls SnoozeGuard and zero calls WakeGuard; failure exactly for negative minutes or a false answer; a success reports minutes × 60 s to now + minutes, or awake with 0 and null; a failure reports the state read |
| SnoozeControl.SetSnoozeState | dotnet/Application/Controllers/SnoozeController.cs:31-65 | the foreach returns SetSnoozeReply and makes the calls of SetSnoozeCalls |
| SnoozeControl.SwitchValve | dotnet/Application/Controllers/SnoozeController.cs:43-60 | one iteration returns Apply's outcome and makes that valve's guard call |
| SnoozeControl.SetSnoozeStateSpec | dotnet/Application/Controllers/SnoozeController.cs:36-64 | 404 exactly on an empty selection; otherwise one coherent state per valve, in order; 207 exactly when some valve failed; an exception exactly when a guard call threw |
| SnoozeControl.SetSnoozeDispatch | dotnet/Application/Controllers/SnoozeController.cs:45-59 | at least one minute calls only SnoozeGuard, zero only WakeGuard, each for a selected valve; negative minutes call neither |
| SnoozeControl.SetSnoozeCallsInOrder | dotnet/Application/Controllers/SnoozeController.cs:41-61 | with nothing thrown, every selected valve gets exactly one call, in order |
| SnoozeControl.NegativeMinutesFail | dotnet/Application/Controllers/SnoozeController.cs:57-63 | negative minutes give 207 with every valve reported as read |
| SnoozeControl.GetSnoozeState | dotnet/Application/Controllers/SnoozeController.cs:16-25 | 404 exactly on an empty selection, else the state of every valve, in order |
| SnoozeControl.GetSingleSnoozeState | dotnet/Application/Controllers/SnoozeController.cs:95-107 | 404 for no valve, 400 for several, else that valve's state |
| SnoozeControl.SetSingleSnoozeState | dotnet/Application/Controllers/SnoozeController.cs:114-145 | 404 for no valve, 400 for several; for one, 503 exactly when the switch failed, else the switched state |
| ValveControl.Read | dotnet/Application/Controllers/ValveController.cs:27-31 | the valve's id and GetValveOpen's answer; an exception exactly when that call throws |
| ValveControl.GetValveState | dotnet/Application/Controllers/ValveController.cs:16-35 | the foreach returns GetValveReply |
| ValveControl.GetValveStateSpec | dotnet/Application/Controllers/ValveController.cs:21-34 | 404 exactly on an empty selection; else every valve, in order, with the state GetValveOpen gave it |
| ValveControl.Apply | dotnet/Application/Controllers/ValveController.cs:53-67 | fails exactly when the read state differs and SetValveOpen answers false; reports the requested state unless it failed, and then the state read |
| ValveControl.SetValveState | dotnet/Application/Controllers/ValveController.cs:41-72 | the foreach returns SetValveReply and makes the calls of SetValveCalls |
| ValveControl.SwitchValve | dotnet/Application/Controllers/ValveController.cs:53-67 | one iteration returns Apply's outcome: a read, and a set only when the read differs |
| ValveControl.SetValveStateSpec | dotnet/Application/Controllers/ValveController.cs:46-71 | 404 exactly on an empty selection; else one state per valve, in order; 207 exactly when some set failed |
| ValveControl.SetOnlyWhenDifferent | dotnet/Application/Controllers/ValveController.cs:59-60 | SetValveOpen is called only with the requested state, for a selected valve that read the opposite |
| ValveControl.SetReadsEveryValve | dotnet/Application/Controllers/ValveController.cs:51-58 | with nothing thrown, every selected valve is read |
| ValveControl.GetSingleValveState | dotnet/Application/Controllers/ValveController.cs:87-108 | 404 for no valve, 400 for several, else that valve's read state |
| ValveControl.SetSingleValveState | dotnet/Application/Controllers/ValveController.cs:115-140 | 404 for no valve, 400 for several; for one, SetValveOpen without a read: the requested state, or 503 |
| NotificationsControl.GetApiModel | dotnet/Application/Controllers/NotificationsController.cs:49-59 | the notification's own fields and added names; UnixTime is its timestamp |
| NotificationsControl.OrderBy | dotnet/Application/Controllers/NotificationsController.cs:34 | a permutation of the input ordered by timestamp, ascending or descending |
| NotificationsControl.GetNotifications | dotnet/Application/Controllers/NotificationsController.cs:16-23 | a listing exactly when the client's listing succeeded |
| NotificationsControl.GetNotificationsSpec | dotnet/Application/Controllers/NotificationsController.cs:21-22 | the models of exactly the listed notifications, as many, newest first |
| NotificationsControl.FirstAfter | dotnet/Application/Controllers/NotificationsController.cs:34 | the first notification later than the time, found exactly when one exists |
| NotificationsControl.FirstAfterLeast | dotnet/Application/Controllers/NotificationsController.cs:34 | in ascending order, it is the earliest of those later than the time |
| NotificationsControl.NextSpec | dotnet/Application/Controllers/NotificationsController.cs:33-35 | the next notification is a listed one later than lastUnixTime and no later than any other such; none exactly when no listed one is later |
| NotificationsControl.GetNextNotification | dotnet/Application/Controllers/NotificationsController.cs:28-47 | the action returns GetNextReply and makes the calls of GetNextCalls |
| NotificationsControl.GetNextSpec | dotnet/Application/Controllers/NotificationsController.cs:35-46 | 404 with no calls when there is no next one; delete calls only DeleteNotification; otherwise MarkNotificationAsRead is called exactly for an unread one when asked; IsRead is the old IsRead or markAsRead, whatever the upstream answered |
| NotificationsControl.DeleteNotification | dotnet/Application/Controllers/NotificationsController.cs:79-86 | 200 exactly when the delete succeeded, 503 when it answered false |
| MaintenanceControl.Warning | dotnet/Application/Controllers/MaintenanceController.cs:72-79 | null exactly when both warnings are null; true exactly when one of them is true |
| MaintenanceControl.SeenBefore | dotnet/Application/Controllers/MaintenanceController.cs:32 | now minus the hours, or ArgumentOutOfRange outside the DateTime range |
| MaintenanceControl.DeviceOf | dotnet/Application/Controllers/MaintenanceController.cs:23-33 | BatteryLevel is the "battery" entry; the battery warning compares it, or 0, with the level; the last-seen warning is false for a device never seen; each warning is null exactly when not asked for |
| MaintenanceControl.GetMaintenanceStateSpec | dotnet/Application/Controllers/MaintenanceController.cs:15-36 | 404 exactly on an empty selection; an exception only for an out-of-range offset; else one state per appliance, in order |
| MaintenanceControl.BatteryLevels | dotnet/Application/Controllers/MaintenanceController.cs:48 | exactly the battery entries present |
| MaintenanceControl.Timestamps | dotnet/Application/Controllers/MaintenanceController.cs:49 | exactly the last-seen times present |
| MaintenanceControl.Min | dotnet/Application/Controllers/MaintenanceController.cs:53 | an element no greater than any other |
| MaintenanceControl.Lowest | dotnet/Application/Controllers/MaintenanceController.cs:53-55 | the least value, null exactly for none |
| MaintenanceControl.Combine | dotnet/Application/Controllers/MaintenanceController.cs:51-57 | the lowest level and time; warnings null exactly when not asked for; the time comparison short-circuits when there are no times |
| MaintenanceControl.GetCombinedMaintenanceState | dotnet/Application/Controllers/MaintenanceController.cs:40-60 | 404 exactly on an empty selection |
| MaintenanceControl.CombinedBatterySpec | dotnet/Application/Controllers/MaintenanceController.cs:48-54 | the lowest level is one appliance's and no higher than any; the warning is raised exactly when some appliance is below the level |
| MaintenanceControl.CombinedLastSeenSpec | dotnet/Application/Controllers/MaintenanceController.cs:49-56 | the earliest time is one appliance's and no later than any; the warning is raised exactly when some appliance was seen before the period; throws only when a time exists and the period is out of range |
| DataControl.ToAggregation | dotnet/Application/Controllers/DataController.cs:27-35 | never the cloud's Unknown |
| DataControl.SplitWhen | dotnet/Application/Controllers/DataController.cs:183 | one 32-bit number per dash-separated piece; otherwise the first FormatException or OverflowException |
| DataControl.FieldsOf | dotnet/Application/Controllers/DataController.cs:150-177 | Day sets year, month, day; Week sets year, week; Month sets year, month; Year sets year; the rest stay null |
| DataControl.DateFieldsOf | dotnet/Application/Controllers/DataController.cs:137-184 | Hour dates exactly what ParseExact accepts; the others date exactly the texts that split into enough numbers, too few pieces throwing |
| DataControl.MeasurementValues | dotnet/Application/Controllers/DataController.cs:49-64 | SenseGuard copies flow, pressure and temperature_guard; Sense copies temperature and humidity; Unknown throws "Appliance type unknown" |
| DataControl.MeasurementPoint | dotnet/Application/Controllers/DataController.cs:49-66 | the type switch, then the date |
| DataControl.WithdrawalPoint | dotnet/Application/Controllers/DataController.cs:71-79 | the four figures copied, then the date |
| DataControl.OrEmpty | dotnet/Application/Controllers/DataController.cs:47 | a null list iterates as empty |
| DataControl.Validate | dotnet/Application/Controllers/DataController.cs:18-20 | the three 400 messages, in the source's order |
| DataControl.DataCalls | dotnet/Application/Controllers/DataController.cs:18-37 | no call when the dates are rejected; otherwise the lock is taken first and released last, and the aggregate is fetched only for an appliance that exists |
| DataControl.GetSenseDetails | dotnet/Application/Controllers/DataController.cs:16-83 | the action returns DataReply and makes the calls of DataCalls |
| DataControl.ConvertPayload | dotnet/Application/Controllers/DataController.cs:39-80 | the two foreach loops compute Convert |
| DataControl.NotFoundSpec | dotnet/Application/Controllers/DataController.cs:25 | 404 exactly when the dates pass and the id is not a key of GetAppliances |
| DataControl.SuccessSpec | dotnet/Application/Controllers/DataController.cs:39-80 | a 200 describes the appliance under the id and has one point per measurement and per withdrawal, in order |
| DataControl.UnknownKindThrows | dotnet/Application/Controllers/DataController.cs:62 | an Unknown appliance with measurements throws "Appliance type unknown" |
| DataControl.HourDate | dotnet/Application/Controllers/DataController.cs:141-149 | a text in "yyyy-MM-dd HH:mm:ss" form is dated by its own year, month, day and hour |
| DataControl.SplitWhenJoin | dotnet/Application/Controllers/DataController.cs:183 | numbers written between dashes are read back |
| DataControl.SplitDate | dotnet/Application/Controllers/DataController.cs:150-177 | a date text with the pieces a grouping needs is dated by them, in order |
| DateTimes.ParseExact | dotnet/Application/Controllers/DataController.cs:143 | succeeds only on 19 characters naming a valid date and time; otherwise FormatException |
| DateTimes.ParseFormat | dotnet/Application/Controllers/DataController.cs:143 | every valid date and time written in the format parses back to itself |
| Text.Split | dotnet/Application/Controllers/DataController.cs:183 | at least one piece, none containing the separator |
| Text.SplitJoin | dotnet/Application/Controllers/DataController.cs:183 | joining the pieces with the separator gives the text back |
| Text.JoinSplit | dotnet/Application/Controllers/DataController.cs:183 | separator-free pieces, joined and split, come back |
| Text.ParseInt32 | dotnet/Application/Controllers/DataController.cs:183 | a result is in the 32-bit range; errors are FormatException or OverflowException |
| Text.ParseRender | dotnet/Application/Controllers/DataController.cs:183 | every 32-bit number, as rendered, parses back to itself |
| HealthControl.HealthReply | dotnet/Application/Controllers/HealthController.cs:21-32 | 200 exactly when GetAppliances returned a non-empty dictionary; an exception or no appliance gives 503 "API is unhealthy" |
| HealthControl.GetHealth | dotnet/Application/Controllers/HealthController.cs:16-33 | answers HealthReply while holding the lock, then releases it, leaving the queue empty |
| Dictionaries.AddAllSpec | dotnet/Application/ApiClient.cs:193 | Adds succeed exactly when no key repeats, and then append in order |
| Dictionaries.ToDictionarySpec | dotnet/Application/ApiClient.cs:144 | ToDictionary succeeds exactly for distinct keys and keeps the input order |
| Dictionaries.PutAllGet | dotnet/Application/ApiClient.cs:240 | after indexer writes, a key maps to the last value written to it |
| Dictionaries.WhereMember | dotnet/Application/ApiClient.cs:534-537 | Where keeps exactly the pairs that satisfy the predicate |

## Left out

- HTTP transport, cookies, default headers other than Authorization, JSON (de)serialisation and URL building: every upstream answer is a value in `ClientSession.Environment`. A missing answer, or None, stands for a request that throws, for the GETs and for the state-changing requests alike.
- Login's HTML scraping: the regular-expression match of the form action, `WebUtility.HtmlDecode` and the rewrite of the redirect scheme. Their outcomes are inputs of `ClientSession.LoginFlow`.
- Client.ApiClient.Login: the log lines are not modelled, and the form POST is recorded as its action and the two credentials rather than as URL-encoded content.
- Real time. `DateTime.Now` and `DateTime.UtcNow` are one integer clock in whole seconds, and requests take no time. So sub-second precision, `ToUniversalTime`, `DateTime.Kind` and the difference between local and UTC time are not modelled.
- Client.ApiClient.AwaitGuard: the deadline and every check read the same clock, which moves only through the delays.
- SnoozeControl.GetApiModel: one clock reading stands for the two `DateTime.UtcNow` reads, and SnoozeSeconds is whole seconds rather than a truncated `TotalSeconds`.
- SnoozeControl.Apply: `minutes * 60` and `AddMinutes` are unbounded, so a count of minutes too large for a long or for DateTime does not throw.
- MaintenanceControl.DeviceOf: `ToUniversalTime` is the identity, and one clock reading stands for each per-device `DateTime.UtcNow`.
- Threading: `TaskCompletionSource`, `lock (_queue)`, `Task.Yield` and `Interlocked` are not modelled. The queue is a sequential state machine, and waiting for a contended lock is not modelled.
- HealthControl.GetHealth: modelled only on a queue nobody else holds, where the lock is granted at once.
- LockQueue.Scoped: modelled only on a queue nobody else holds, like GetHealth.
- Enum values outside the declared members, which model binding and the `_` arms of the switches would reject: the model's datatypes have no such values.
- NotificationPollerService, Program, AuthorizeOperationFilter, JsonTypeNameAttribute, DataUnprotector and DebugController: start-up, background polling, Swagger metadata and pass-through code.
- The cached details fetchers of ApiClient (GetSenseDetails and GetSenseGuardDetails at ApiClient.cs:267-303), used only by DebugController.
- NotificationTypes.GetCategoryTypeMessage is not part of this model: the message table is a function in `ClientSession.Environment`.
- Base64 and UTF-8 decoding in BasicAuthHandler are the `decode` parameter, and `AuthenticationHeaderValue.Parse` is replaced by a parsed header.
- Decimal measurement and cost fields are copied without arithmetic; they are `real` values in the model, so decimal precision and rounding are not modelled.
- DTO fields that no modelled code reads are dropped from the datatypes.
- NotificationsControl.OrderBy: the stability of LINQ's OrderBy is not stated, only that the result is an ordered permutation.
- DataControl.DateFieldsOf: SetMeasurementDate assigns the fields of a DataPoint in place; the model returns the fields as a value, because no other code holds the point before it is added.
- DateTimes.ParseExact: only the exact digit layout is accepted; culture data, leading or trailing white space and other DateTimeStyles are not modelled.
- Text.ParseInt32: culture-specific signs and digits are not modelled; only '-' and '+' and the ASCII digits are.
