# Navigation-session controllers

This project models the two Android controllers of the Flutter Mapbox navigation plugin that drive a navigation session:

- **TurnByTurn**, the embedded-view controller. It answers the host's method-channel commands: `buildRoute`, `clearRoute`, `startFreeDrive`, `startNavigation`, `finishNavigation`, and the platform-version, remaining-distance and remaining-duration queries. It also reacts to:
  - the three route-request outcomes;
  - the seven guidance-engine observers;
  - event-channel listen and cancel;
  - the host's activity-destroyed signal.
- **NavigationActivity**, the full-screen controller. It reacts to:
  - its own creation and destruction;
  - the STOP_NAVIGATION and ADD_WAYPOINTS broadcasts;
  - the navigation-view state listener;
  - the route-request outcomes and the engine observers;
  - the long-press and map-tap gestures.

Each controller is a `class` with the source's fields (`nav_types.dfy` holds the shared values).
- `turn_by_turn.dfy`, `navigation_activity.dfy`: the classes. Each event sent to the sink is appended to an `events` log.
- Navigation view, routing engine, guidance engine and broadcast system: reduced to a few fields:
  - a view mode (free drive, route preview or active guidance on a route list);
  - the route-replay setting;
  - a log of the route requests issued;
  - the set of registered observers;
  - whether the channel handlers are attached.
- Spec functions: `turn_by_turn_spec.dfy` and `navigation_activity_spec.dfy` give each operation as a function on a value snapshot of that state (`Session`, `Screen`).
- Class methods: each command and callback method is proved to leave the object in exactly the state its function gives (`ensures Snapshot() == XSpec(old(Snapshot()))`). The four helpers AddWaypoints, AddPointsToWaypointSet, RegisterMapObservers and UnregisterMapObservers change only the fields they name and state those fields' new values.
- `buildRoute`'s waypoint loop and `onCreate`'s `points.forEach` stay loops with invariants.
- The lemmas are about the spec functions. Some cover a single call. Others cover `Run`, which folds a list of inputs (commands and callbacks in any order) over the state.

Four behaviours of the code that the model keeps as written:
- **No request-generation tag.** Every `onRoutesReady` overwrites `currentRoutes`, whichever request it answers (`LateAnswerOverwrites`).
- **No duplicate guard in `finishNavigation`.** Every call emits NAVIGATION_CANCELLED (`FinishTwiceEmitsTwice`).
- **Missing or malformed waypoints make `buildRoute` throw** from a non-null cast. The handler throws before replying and no route is requested. The earlier steps have already run: the cancel flag is cleared, the options are applied, and the waypoints are cleared and partly refilled (`Threw`, `BuildRouteMalformed`). An empty waypoint map is not rejected: it requests a route for zero waypoints.
- **A failing progress payload leaves the cache written.** The distance and duration are already cached when building the event throws, and no PROGRESS is sent. TurnByTurn swallows the exception; NavigationActivity does not catch it, so it escapes its observer (both `ProgressSpec`s, parameter `payloadThrows`).

## Model

| member | source | states |
|---|---|---|
| TurnByTurnSpec.NavigationModeFor | android/src/main/kotlin/com/eopeter/fluttermapboxnavigation/TurnByTurn.kt:225-232 | an absent mode keeps the previous profile; "walking" gives walking, "cycling" cycling, and any other string driving, in both directions |
| TurnByTurnSpec.VoiceUnitsFor | android/src/main/kotlin/com/eopeter/fluttermapboxnavigation/TurnByTurn.kt:236-240 | units are metric exactly when the argument is "metric", imperial otherwise |
| TurnByTurnSpec.ParsedWaypoints | android/src/main/kotlin/com/eopeter/fluttermapboxnavigation/TurnByTurn.kt:130-137 | the loop's result is the conversion of the longest well-formed prefix: entry k converts to waypoint k, all entries are taken iff all are well formed, and otherwise the next entry is malformed |
| TurnByTurnSpec.MethodOf | android/src/main/kotlin/com/eopeter/fluttermapboxnavigation/TurnByTurn.kt:105-121 | the dispatch falls to `else` exactly for names outside the eight known ones, and picks buildRoute exactly for "buildRoute" |
| TurnByTurnSpec.SetOptionsFieldByField | android/src/main/kotlin/com/eopeter/fluttermapboxnavigation/TurnByTurn.kt:224-262 | each option after setOptions: a present value is taken, an absent one falls back to its default (simulate false, language "en", imperial unless "metric", alternatives/voice/banner/long-press/animate true, tap callback/optimized false, zoom 15, bearing and tilt 0, day/night styles streets/dark), not to the previous value; an absent mode keeps the profile; allowsUTurnAtWayPoints and enableRefresh are untouched |
| TurnByTurnSpec.SetOptionsForgetsPrevious | android/src/main/kotlin/com/eopeter/fluttermapboxnavigation/TurnByTurn.kt:224-262 | two option records that agree on the profile and the two unwritten flags give the same result for the same arguments |
| TurnByTurnSpec.SetOptionsIdempotent | android/src/main/kotlin/com/eopeter/fluttermapboxnavigation/TurnByTurn.kt:224-262 | applying the same arguments twice equals applying them once |
| TurnByTurnSpec.InitialProfileKeptWithoutMode | android/src/main/kotlin/com/eopeter/fluttermapboxnavigation/TurnByTurn.kt:62 | the initial profile is driving-traffic and arguments without a mode keep it |
| TurnByTurnSpec.BuildRouteWellFormed | android/src/main/kotlin/com/eopeter/fluttermapboxnavigation/TurnByTurn.kt:124-140 | with well-formed waypoints: the waypoint list is exactly the supplied points in iteration order with their silent flags, the cancel flag is false, the options are applied, exactly one route request carries those waypoints and the options, the reply is true, and routes, events and view are unchanged |
| TurnByTurnSpec.BuildRouteMalformed | android/src/main/kotlin/com/eopeter/fluttermapboxnavigation/TurnByTurn.kt:124-137 | without arguments, without "wayPoints" or with a malformed entry the handler throws before replying: there is no route request, the cancel flag is already false, and the waypoints are the well-formed prefix, strictly shorter than the input |
| TurnByTurnSpec.StartNavigationAck | android/src/main/kotlin/com/eopeter/fluttermapboxnavigation/TurnByTurn.kt:113-216 | the reply is "routes are stored"; without routes it emits NAVIGATION_CANCELLED and leaves the view alone; with routes it guides on exactly those routes and emits NAVIGATION_RUNNING; the free-drive flag is cleared |
| TurnByTurnSpec.FinishNavigationEffect | android/src/main/kotlin/com/eopeter/fluttermapboxnavigation/TurnByTurn.kt:203-222 | finishNavigation switches to free drive, sets the cancel flag, appends one NAVIGATION_CANCELLED, changes nothing else (routes kept) and replies "routes are stored" |
| TurnByTurnSpec.FinishTwiceEmitsTwice | android/src/main/kotlin/com/eopeter/fluttermapboxnavigation/TurnByTurn.kt:218-222 | two finishNavigation calls emit two NAVIGATION_CANCELLED events and give the same reply |
| TurnByTurnSpec.ClearRouteEffect | android/src/main/kotlin/com/eopeter/fluttermapboxnavigation/TurnByTurn.kt:184-189 | clearRoute drops the routes, switches to free drive, emits NAVIGATION_CANCELLED, replies true and leaves the cancel flag as it was |
| TurnByTurnSpec.CachedValuesReturned | android/src/main/kotlin/com/eopeter/fluttermapboxnavigation/TurnByTurn.kt:118-119 | the two queries reply with the cached values and change nothing |
| TurnByTurnSpec.StartFreeDriveEffect | android/src/main/kotlin/com/eopeter/fluttermapboxnavigation/TurnByTurn.kt:109-194 | startFreeDrive sets the plugin's free-drive flag, switches to free drive and sends no reply |
| TurnByTurnSpec.UnknownMethodNotImplemented | android/src/main/kotlin/com/eopeter/fluttermapboxnavigation/TurnByTurn.kt:120 | an unknown method is answered notImplemented and changes nothing |
| TurnByTurnSpec.RouteOutcomes | android/src/main/kotlin/com/eopeter/fluttermapboxnavigation/TurnByTurn.kt:159-179 | a route answer replaces the routes, emits exactly one ROUTE_BUILT with them and previews them with the replay setting; failure and cancel emit only their event and change nothing else |
| TurnByTurnSpec.LateAnswerOverwrites | android/src/main/kotlin/com/eopeter/fluttermapboxnavigation/TurnByTurn.kt:159-160 | after any sequence of inputs, including any number of buildRoute calls, the route answer that arrives last is the one stored |
| TurnByTurnSpec.ProgressGuard | android/src/main/kotlin/com/eopeter/fluttermapboxnavigation/TurnByTurn.kt:317-325 | a tick changes nothing while cancelled; otherwise it caches distance and duration and emits PROGRESS unless building the payload throws |
| TurnByTurnSpec.LocationSignals | android/src/main/kotlin/com/eopeter/fluttermapboxnavigation/TurnByTurn.kt:292-297 | a location update only sets the last location; a raw location does nothing |
| TurnByTurnSpec.InstructionSignals | android/src/main/kotlin/com/eopeter/fluttermapboxnavigation/TurnByTurn.kt:299-305 | banner and voice instructions each emit their event with the text and change nothing else |
| TurnByTurnSpec.RouteSignals | android/src/main/kotlin/com/eopeter/fluttermapboxnavigation/TurnByTurn.kt:307-315 | off-route emits USER_OFF_ROUTE only for true; routes-changed emits REROUTE_ALONG only for a non-empty list; nothing else changes |
| TurnByTurnSpec.ArrivalSignals | android/src/main/kotlin/com/eopeter/fluttermapboxnavigation/TurnByTurn.kt:327-334 | final arrival switches to free drive and emits ON_ARRIVAL; waypoint arrival and next-leg start do nothing |
| TurnByTurnSpec.EveryObserverListed | android/src/main/kotlin/com/eopeter/fluttermapboxnavigation/TurnByTurn.kt:264-282 | every observer kind is among the seven that registerObservers adds and unregisterObservers removes |
| TurnByTurnSpec.ActivityDestroyedGuard | android/src/main/kotlin/com/eopeter/fluttermapboxnavigation/TurnByTurn.kt:343-350 | teardown happens only for the own activity after a cancellation, and then removes every observer, detaches both handlers and changes nothing else; otherwise nothing changes |
| TurnByTurnSpec.StartNavigationFrame | android/src/main/kotlin/com/eopeter/fluttermapboxnavigation/TurnByTurn.kt:196-216 | startNavigation keeps the observers, the cancel flag and the cached values and appends exactly one of NAVIGATION_CANCELLED, NAVIGATION_RUNNING |
| TurnByTurnSpec.CallKeepsRegistered | android/src/main/kotlin/com/eopeter/fluttermapboxnavigation/TurnByTurn.kt:104-122 | no host command touches the observer registrations |
| TurnByTurnSpec.StepKeepsAllOrNothing | android/src/main/kotlin/com/eopeter/fluttermapboxnavigation/TurnByTurn.kt:264-350 | every input keeps the observers all registered or none |
| TurnByTurnSpec.RunKeepsAllOrNothing | android/src/main/kotlin/com/eopeter/fluttermapboxnavigation/TurnByTurn.kt:264-350 | over any sequence of inputs the observers stay all registered or none |
| TurnByTurnSpec.CallEventsShape | android/src/main/kotlin/com/eopeter/fluttermapboxnavigation/TurnByTurn.kt:104-122 | every command appends nothing, NAVIGATION_CANCELLED or NAVIGATION_RUNNING |
| TurnByTurnSpec.CallKeepsCaches | android/src/main/kotlin/com/eopeter/fluttermapboxnavigation/TurnByTurn.kt:104-122 | no command but buildRoute clears the cancel flag or touches the cached distance and duration |
| TurnByTurnSpec.CallKeepsFinished | android/src/main/kotlin/com/eopeter/fluttermapboxnavigation/TurnByTurn.kt:104-122 | after a cancellation, a command other than buildRoute keeps the flag and the cached values and appends no PROGRESS |
| TurnByTurnSpec.StepKeepsFinished | android/src/main/kotlin/com/eopeter/fluttermapboxnavigation/TurnByTurn.kt:317-325 | after a cancellation, any input but buildRoute keeps the flag and the cached values and appends at most one event, never PROGRESS |
| TurnByTurnSpec.FinishedSessionIgnoresTicks | android/src/main/kotlin/com/eopeter/fluttermapboxnavigation/TurnByTurn.kt:317-325 | once cancelled, any sequence of inputs without buildRoute keeps the flag and the cached values and emits no PROGRESS |
| TurnByTurnSpec.TicksIgnoredAfterFinish | android/src/main/kotlin/com/eopeter/fluttermapboxnavigation/TurnByTurn.kt:218-325 | after finishNavigation and until the next buildRoute, ticks leave the cached values as before the finish and emit no PROGRESS |
| TurnByTurnSpec.BuildRouteResumesTicks | android/src/main/kotlin/com/eopeter/fluttermapboxnavigation/TurnByTurn.kt:317-325 | buildRoute always clears the cancel flag, so the next tick is cached and forwarded again |
| TurnByTurn.TurnByTurn.constructor | android/src/main/kotlin/com/eopeter/fluttermapboxnavigation/TurnByTurn.kt:49-85 | the field initialisers |
| TurnByTurn.TurnByTurn.InitFlutterChannelHandlers | android/src/main/kotlin/com/eopeter/fluttermapboxnavigation/TurnByTurn.kt:87-90 | both handlers attached |
| TurnByTurn.TurnByTurn.InitNavigation | android/src/main/kotlin/com/eopeter/fluttermapboxnavigation/TurnByTurn.kt:92-102 | the seven observers registered |
| TurnByTurn.TurnByTurn.OnMethodCall | android/src/main/kotlin/com/eopeter/fluttermapboxnavigation/TurnByTurn.kt:104-122 | new state and reply are those of the dispatch `CallSpec` |
| TurnByTurn.TurnByTurn.BuildRoute | android/src/main/kotlin/com/eopeter/fluttermapboxnavigation/TurnByTurn.kt:124-140 | new state and reply are those of `BuildRouteSpec` |
| TurnByTurn.TurnByTurn.AddWaypoints | android/src/main/kotlin/com/eopeter/fluttermapboxnavigation/TurnByTurn.kt:130-137 | the loop appends exactly `ParsedWaypoints` of the entries and completes iff every entry is well formed |
| TurnByTurn.TurnByTurn.GetRoute | android/src/main/kotlin/com/eopeter/fluttermapboxnavigation/TurnByTurn.kt:142-157 | one request for the current waypoints and options is appended |
| TurnByTurn.TurnByTurn.OnRoutesReady | android/src/main/kotlin/com/eopeter/fluttermapboxnavigation/TurnByTurn.kt:159-171 | new state is `RoutesReadySpec` |
| TurnByTurn.TurnByTurn.OnFailure | android/src/main/kotlin/com/eopeter/fluttermapboxnavigation/TurnByTurn.kt:173-175 | ROUTE_BUILD_FAILED appended |
| TurnByTurn.TurnByTurn.OnCanceled | android/src/main/kotlin/com/eopeter/fluttermapboxnavigation/TurnByTurn.kt:177-179 | ROUTE_BUILD_CANCELLED appended |
| TurnByTurn.TurnByTurn.ClearRoute | android/src/main/kotlin/com/eopeter/fluttermapboxnavigation/TurnByTurn.kt:184-189 | new state and reply are `ClearRouteSpec` |
| TurnByTurn.TurnByTurn.StartFreeDrive | android/src/main/kotlin/com/eopeter/fluttermapboxnavigation/TurnByTurn.kt:192-194 | view in free drive |
| TurnByTurn.TurnByTurn.HandleStartNavigation | android/src/main/kotlin/com/eopeter/fluttermapboxnavigation/TurnByTurn.kt:196-201 | new state and reply are `StartNavigationSpec` |
| TurnByTurn.TurnByTurn.HandleFinishNavigation | android/src/main/kotlin/com/eopeter/fluttermapboxnavigation/TurnByTurn.kt:203-206 | new state and reply are `FinishNavigationSpec` |
| TurnByTurn.TurnByTurn.StartNavigation | android/src/main/kotlin/com/eopeter/fluttermapboxnavigation/TurnByTurn.kt:209-216 | new state is `StartGuidanceSpec` |
| TurnByTurn.TurnByTurn.FinishNavigation | android/src/main/kotlin/com/eopeter/fluttermapboxnavigation/TurnByTurn.kt:218-222 | new state is `FinishSpec` |
| TurnByTurn.TurnByTurn.SetOptions | android/src/main/kotlin/com/eopeter/fluttermapboxnavigation/TurnByTurn.kt:224-262 | new options are `ApplyArguments` of the old ones |
| TurnByTurn.TurnByTurn.RegisterObservers | android/src/main/kotlin/com/eopeter/fluttermapboxnavigation/TurnByTurn.kt:264-272 | the seven observers added |
| TurnByTurn.TurnByTurn.UnregisterObservers | android/src/main/kotlin/com/eopeter/fluttermapboxnavigation/TurnByTurn.kt:274-282 | the seven observers removed |
| TurnByTurn.TurnByTurn.OnListen | android/src/main/kotlin/com/eopeter/fluttermapboxnavigation/TurnByTurn.kt:284-286 | the plugin's sink is the given one |
| TurnByTurn.TurnByTurn.OnCancel | android/src/main/kotlin/com/eopeter/fluttermapboxnavigation/TurnByTurn.kt:288-290 | the plugin's sink is cleared |
| TurnByTurn.TurnByTurn.OnNewLocationMatcherResult | android/src/main/kotlin/com/eopeter/fluttermapboxnavigation/TurnByTurn.kt:293-295 | last location set |
| TurnByTurn.TurnByTurn.OnNewRawLocation | android/src/main/kotlin/com/eopeter/fluttermapboxnavigation/TurnByTurn.kt:296 | changes nothing (no modifies clause) |
| TurnByTurn.TurnByTurn.OnBannerInstructions | android/src/main/kotlin/com/eopeter/fluttermapboxnavigation/TurnByTurn.kt:299-301 | BANNER_INSTRUCTION appended |
| TurnByTurn.TurnByTurn.OnVoiceInstructions | android/src/main/kotlin/com/eopeter/fluttermapboxnavigation/TurnByTurn.kt:303-305 | SPEECH_ANNOUNCEMENT appended |
| TurnByTurn.TurnByTurn.OnOffRouteStateChanged | android/src/main/kotlin/com/eopeter/fluttermapboxnavigation/TurnByTurn.kt:307-309 | USER_OFF_ROUTE appended iff off route |
| TurnByTurn.TurnByTurn.OnRoutesChanged | android/src/main/kotlin/com/eopeter/fluttermapboxnavigation/TurnByTurn.kt:311-315 | REROUTE_ALONG appended iff routes are non-empty |
| TurnByTurn.TurnByTurn.OnRouteProgressChanged | android/src/main/kotlin/com/eopeter/fluttermapboxnavigation/TurnByTurn.kt:317-325 | new state is `ProgressSpec` |
| TurnByTurn.TurnByTurn.OnFinalDestinationArrival | android/src/main/kotlin/com/eopeter/fluttermapboxnavigation/TurnByTurn.kt:328-331 | free drive and ON_ARRIVAL |
| TurnByTurn.TurnByTurn.OnNextRouteLegStart | android/src/main/kotlin/com/eopeter/fluttermapboxnavigation/TurnByTurn.kt:332 | changes nothing (no modifies clause) |
| TurnByTurn.TurnByTurn.OnWaypointArrival | android/src/main/kotlin/com/eopeter/fluttermapboxnavigation/TurnByTurn.kt:333 | changes nothing (no modifies clause) |
| TurnByTurn.TurnByTurn.OnActivityDestroyed | android/src/main/kotlin/com/eopeter/fluttermapboxnavigation/TurnByTurn.kt:343-350 | new state is `ActivityDestroyedSpec` |
| NavigationActivitySpec.InProgressRaisedOnlyByActiveNavigation | android/src/main/kotlin/com/eopeter/fluttermapboxnavigation/activity/NavigationActivity.kt:69-281 | only onActiveNavigation raises isNavigationInProgress, and it always does; onArrival, final arrival, the stop broadcast and an empty routes signal leave it false |
| NavigationActivitySpec.RoutesChangedKeepsFlagDown | android/src/main/kotlin/com/eopeter/fluttermapboxnavigation/activity/NavigationActivity.kt:272-292 | after the routes observer the flag is set iff it was set and the list is non-empty, re-entry or not |
| NavigationActivitySpec.TryCancelOnce | android/src/main/kotlin/com/eopeter/fluttermapboxnavigation/activity/NavigationActivity.kt:178-184 | a no-op when not in progress; otherwise the flag is cleared, free drive and exactly one NAVIGATION_CANCELLED; a second call changes nothing, so two calls emit at most one |
| NavigationActivitySpec.EmptyRoutesCancelOnce | android/src/main/kotlin/com/eopeter/fluttermapboxnavigation/activity/NavigationActivity.kt:277-284 | an empty signal while in progress clears the flag, switches to free drive, drops the engine's routes once and emits exactly one NAVIGATION_CANCELLED, also when the engine re-enters the observer; when idle, or repeated, it changes nothing |
| NavigationActivitySpec.NewRoutesReroute | android/src/main/kotlin/com/eopeter/fluttermapboxnavigation/activity/NavigationActivity.kt:285-290 | a non-empty signal emits REROUTE_ALONG only while in progress and changes nothing else |
| NavigationActivitySpec.RouteRequestOutcomes | android/src/main/kotlin/com/eopeter/fluttermapboxnavigation/activity/NavigationActivity.kt:187-232 | requestRoutes emits ROUTE_BUILDING and logs the request; ready emits ROUTE_BUILT first, then for an empty list ROUTE_BUILD_NO_ROUTES_FOUND and free drive without replay, else guidance on those routes with the replay setting; failure and cancel emit their event and switch to free drive; none touches the progress flag |
| NavigationActivitySpec.CreateBranches | android/src/main/kotlin/com/eopeter/fluttermapboxnavigation/activity/NavigationActivity.kt:78-157 | listener, engine observers and receivers always in place; free drive switches to free drive with the replay setting and requests nothing; otherwise the intent's list (if any) replaces the points, they are appended to the waypoint set in order, and one request for that set is made iff there are points |
| NavigationActivitySpec.AddWaypointsAppends | android/src/main/kotlin/com/eopeter/fluttermapboxnavigation/activity/NavigationActivity.kt:126-130 | the stops are appended to the points in order; a missing extra changes nothing; nothing but the points ever changes |
| NavigationActivitySpec.LongClickRequest | android/src/main/kotlin/com/eopeter/fluttermapboxnavigation/activity/NavigationActivity.kt:299-306 | with a known location exactly one request for [last location, pressed point], both not silent, after ROUTE_BUILDING; without one nothing happens |
| NavigationActivitySpec.DestroyUndoesCreate | android/src/main/kotlin/com/eopeter/fluttermapboxnavigation/activity/NavigationActivity.kt:78-176 | with the plugin flags unchanged, onDestroy removes every observer, map observer, listener and receiver that onCreate added |
| NavigationActivitySpec.ProgressUpdatesCache | android/src/main/kotlin/com/eopeter/fluttermapboxnavigation/activity/NavigationActivity.kt:235-239 | progress always writes the plugin's cached values; it emits one PROGRESS when the payload builds, and when building it throws (uncaught) it appends no event at all |
| NavigationActivitySpec.StepCancellations | android/src/main/kotlin/com/eopeter/fluttermapboxnavigation/activity/NavigationActivity.kt:62-321 | one input only appends events, and NAVIGATION_CANCELLED count plus the running flag grows only on onActiveNavigation, by at most one |
| NavigationActivitySpec.CancellationsBounded | android/src/main/kotlin/com/eopeter/fluttermapboxnavigation/activity/NavigationActivity.kt:62-321 | over any sequence of inputs the log only grows and NAVIGATION_CANCELLED is emitted at most once per onActiveNavigation (plus once if already in progress) |
| NavigationActivitySpec.NoActivationNoCancellation | android/src/main/kotlin/com/eopeter/fluttermapboxnavigation/activity/NavigationActivity.kt:62-321 | without onActiveNavigation an idle activity never emits NAVIGATION_CANCELLED and never starts navigating |
| NavigationActivity.NavigationActivity.constructor | android/src/main/kotlin/com/eopeter/fluttermapboxnavigation/activity/NavigationActivity.kt:52-58 | the initial state: no receivers, empty points and waypoint set, not navigating, no last location |
| NavigationActivity.NavigationActivity.OnCreate | android/src/main/kotlin/com/eopeter/fluttermapboxnavigation/activity/NavigationActivity.kt:78-157 | new state is `CreateSpec` |
| NavigationActivity.NavigationActivity.AttachObservers | android/src/main/kotlin/com/eopeter/fluttermapboxnavigation/activity/NavigationActivity.kt:84-134 | new state is `CreateViewSpec` |
| NavigationActivity.NavigationActivity.AddPointsToWaypointSet | android/src/main/kotlin/com/eopeter/fluttermapboxnavigation/activity/NavigationActivity.kt:155 | the waypoint set grows by the points, in order |
| NavigationActivity.NavigationActivity.OnDestroy | android/src/main/kotlin/com/eopeter/fluttermapboxnavigation/activity/NavigationActivity.kt:159-176 | new state is `DestroySpec` |
| NavigationActivity.NavigationActivity.RegisterMapObservers | android/src/main/kotlin/com/eopeter/fluttermapboxnavigation/activity/NavigationActivity.kt:94-103 | the map observers the flags ask for are added |
| NavigationActivity.NavigationActivity.UnregisterMapObservers | android/src/main/kotlin/com/eopeter/fluttermapboxnavigation/activity/NavigationActivity.kt:162-163 | the map observers the flags name are removed |
| NavigationActivity.NavigationActivity.TryCancelNavigation | android/src/main/kotlin/com/eopeter/fluttermapboxnavigation/activity/NavigationActivity.kt:178-184 | new state is `TryCancelSpec` |
| NavigationActivity.NavigationActivity.OnStopNavigationBroadcast | android/src/main/kotlin/com/eopeter/fluttermapboxnavigation/activity/NavigationActivity.kt:120-124 | new state is `TryCancelSpec` |
| NavigationActivity.NavigationActivity.OnAddWaypointsBroadcast | android/src/main/kotlin/com/eopeter/fluttermapboxnavigation/activity/NavigationActivity.kt:126-130 | new state is `AddWaypointsSpec` |
| NavigationActivity.NavigationActivity.OnFreeDrive | android/src/main/kotlin/com/eopeter/fluttermapboxnavigation/activity/NavigationActivity.kt:63 | changes nothing (no modifies clause) |
| NavigationActivity.NavigationActivity.OnDestinationPreview | android/src/main/kotlin/com/eopeter/fluttermapboxnavigation/activity/NavigationActivity.kt:65 | changes nothing (no modifies clause) |
| NavigationActivity.NavigationActivity.OnRoutePreview | android/src/main/kotlin/com/eopeter/fluttermapboxnavigation/activity/NavigationActivity.kt:67 | changes nothing (no modifies clause) |
| NavigationActivity.NavigationActivity.OnActiveNavigation | android/src/main/kotlin/com/eopeter/fluttermapboxnavigation/activity/NavigationActivity.kt:69-71 | flag raised |
| NavigationActivity.NavigationActivity.OnArrival | android/src/main/kotlin/com/eopeter/fluttermapboxnavigation/activity/NavigationActivity.kt:73-75 | flag cleared |
| NavigationActivity.NavigationActivity.RequestRoutes | android/src/main/kotlin/com/eopeter/fluttermapboxnavigation/activity/NavigationActivity.kt:186-201 | ROUTE_BUILDING, then the request logged |
| NavigationActivity.NavigationActivity.OnRoutesReady | android/src/main/kotlin/com/eopeter/fluttermapboxnavigation/activity/NavigationActivity.kt:203-219 | new state is `RoutesReadySpec` |
| NavigationActivity.NavigationActivity.OnFailure | android/src/main/kotlin/com/eopeter/fluttermapboxnavigation/activity/NavigationActivity.kt:221-224 | new state is `RouteFailureSpec` |
| NavigationActivity.NavigationActivity.OnCanceled | android/src/main/kotlin/com/eopeter/fluttermapboxnavigation/activity/NavigationActivity.kt:226-229 | new state is `RouteCanceledSpec` |
| NavigationActivity.NavigationActivity.OnRouteProgressChanged | android/src/main/kotlin/com/eopeter/fluttermapboxnavigation/activity/NavigationActivity.kt:235-239 | new state is `ProgressSpec`: cached values written, and PROGRESS appended unless building the payload throws |
| NavigationActivity.NavigationActivity.OnWaypointArrival | android/src/main/kotlin/com/eopeter/fluttermapboxnavigation/activity/NavigationActivity.kt:242 | changes nothing (no modifies clause) |
| NavigationActivity.NavigationActivity.OnNextRouteLegStart | android/src/main/kotlin/com/eopeter/fluttermapboxnavigation/activity/NavigationActivity.kt:244 | changes nothing (no modifies clause) |
| NavigationActivity.NavigationActivity.OnFinalDestinationArrival | android/src/main/kotlin/com/eopeter/fluttermapboxnavigation/activity/NavigationActivity.kt:246-250 | new state is `FinalArrivalSpec` |
| NavigationActivity.NavigationActivity.OnNewLocationMatcherResult | android/src/main/kotlin/com/eopeter/fluttermapboxnavigation/activity/NavigationActivity.kt:254-256 | last location set |
| NavigationActivity.NavigationActivity.OnNewRawLocation | android/src/main/kotlin/com/eopeter/fluttermapboxnavigation/activity/NavigationActivity.kt:257 | changes nothing (no modifies clause) |
| NavigationActivity.NavigationActivity.OnBannerInstructions | android/src/main/kotlin/com/eopeter/fluttermapboxnavigation/activity/NavigationActivity.kt:260-262 | BANNER_INSTRUCTION appended |
| NavigationActivity.NavigationActivity.OnVoiceInstructions | android/src/main/kotlin/com/eopeter/fluttermapboxnavigation/activity/NavigationActivity.kt:264-266 | SPEECH_ANNOUNCEMENT appended |
| NavigationActivity.NavigationActivity.OnOffRouteStateChanged | android/src/main/kotlin/com/eopeter/fluttermapboxnavigation/activity/NavigationActivity.kt:268-270 | USER_OFF_ROUTE appended iff off route |
| NavigationActivity.NavigationActivity.OnRoutesChanged | android/src/main/kotlin/com/eopeter/fluttermapboxnavigation/activity/NavigationActivity.kt:272-292 | new state is `RoutesChangedSpec`, including the re-entrant call from setRoutes(emptyList()) |
| NavigationActivity.NavigationActivity.OnMapLongClick | android/src/main/kotlin/com/eopeter/fluttermapboxnavigation/activity/NavigationActivity.kt:299-306 | new state is `LongClickSpec`; the gesture is not consumed |
| NavigationActivity.NavigationActivity.OnMapClick | android/src/main/kotlin/com/eopeter/fluttermapboxnavigation/activity/NavigationActivity.kt:314-320 | ON_MAP_TAP appended; the gesture is not consumed |

## Left out

- The Mapbox SDK (navigation view API, `MapboxNavigationApp`, routing, replay, `customizeViewOptions`/`customizeViewBinders`) is a foreign library. It becomes the view mode, replay, request-log, observer-set and handler fields; the custom end-navigation button binder and the long-click intercept option are not modelled.
- Route and instruction payloads (Gson JSON, banner text, voice announcement, the map-tap JSON with its `toString` coordinates) are carried as opaque values: a route list, a string, a point.
- NavTypes.PlainWaypoint: the plugin's `models.Waypoint` class (imported at NavigationActivity.kt:16) is outside this model, and the default `isSilent` of `Waypoint(point)` (NavigationActivity.kt:302-303) is assumed false.
- The plugin-wide values that the controllers read and write (the event sink, the free-drive flag, the cached remaining distance and duration) are modelled as fields of each controller that start empty. Their sharing between the two controllers, and the plugin's own writes to the event sink, are not modelled.
- The `WaypointSet` class is not part of this model. It is a sequence of (point, silent) with clear and add; nothing is claimed about its coordinate, index or name lists.
- Floating-point values (coordinates, zoom, bearing, tilt, remaining distance and duration) are carried as `real`s and never computed with; the Float/Double distinction is not modelled.
- Threading: every callback is a sequential method, callable in any order; there are no locks and no generation tag, as in the code.
- The HashMap of waypoints is taken as a sequence of entries in its iteration order; the hash order itself is not modelled.
- The method and event channels are taken to exist (`?.` calls on them are unconditional), and `MapboxNavigationApp.current()` is taken to be non-null.
- `PluginUtilities.sendEvent` is not part of this model; each send is an unconditional append to the log, whatever the sink.
- TurnByTurn.TurnByTurn.OnListen: takes a sink identity; a null sink passed by the event channel is not modelled.
- The option fields of TurnByTurn are grouped into one `Options` record; setOptions writing the map styles into the view options is reduced to storing them.
- TurnByTurn.TurnByTurn.GetRoute: the request records the waypoints, profile, language, alternatives, voice units and the two instruction flags; `steps(true)` and the default options are constant and not recorded.
- NavigationActivity.NavigationActivity.RequestRoutes: the request records only the waypoints; the options it reads from the plugin globals are not recorded.
- NavigationActivity.NavigationActivity.OnCreate: theme, layout inflation, the access token, the navigation app setup and the map-style options are UI or SDK setup and are not modelled. The plugin globals it reads are a `Globals` parameter, taken to stay fixed over a run.
- NavigationActivity.NavigationActivity.OnRoutesChanged: whether the engine calls the observer back from `setRoutes(emptyList())` is the `engineReenters` parameter; the re-entrant call is made with an empty list.
- The activity-lifecycle callbacks of TurnByTurn other than onActivityDestroyed are empty and not modelled; the plugin entry point, the embedded map view and the UI adapter files are not part of this model.
