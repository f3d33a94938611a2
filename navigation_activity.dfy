/** The full-screen navigation controller. Its fields are those of the activity plus
    the plugin fields it writes; the navigation view, the engine, the broadcast system
    and the event sink are reduced to the fields after `pluginDurationRemaining`. The
    plugin settings it reads come in as a Globals value. Every method is proved to
    leave the object in the state its function in NavigationActivitySpec gives. */
module NavigationActivity {
  import opened NavTypes
  import opened NavigationActivitySpec

  class NavigationActivity {
    var finishReceiver: bool
    var addWayPointsReceiver: bool
    var points: seq<Waypoint>
    var waypointSet: seq<Waypoint>
    var isNavigationInProgress: bool
    var lastLocation: Option<Point>

    /** The plugin's remaining distance and duration, written by the progress observer. */
    var pluginDistanceRemaining: Option<real>
    var pluginDurationRemaining: Option<real>

    /** Every event sent to the sink, oldest first. */
    var events: seq<Event>
    /** The navigation view's mode and route-replay setting. */
    var view: ViewMode
    var routeReplay: Option<bool>
    /** The waypoint set of every route request issued, oldest first. */
    var requests: seq<seq<Waypoint>>
    /** How many times the engine was told to drop its routes. */
    var routeResets: nat
    /** The observers registered with the engine, the view listener and the map observers. */
    var registered: set<Observer>
    var listenerAdded: bool
    var mapObservers: set<MapObserver>

    ghost function Snapshot(): Screen
      reads this
    {
      Screen(points, waypointSet, isNavigationInProgress, lastLocation, events, view,
             routeReplay, requests, routeResets, registered, listenerAdded, mapObservers,
             finishReceiver, addWayPointsReceiver, pluginDistanceRemaining, pluginDurationRemaining)
    }

    constructor ()
      ensures Snapshot() == NewScreen()
    {
      finishReceiver, addWayPointsReceiver := false, false;
      points, waypointSet := [], [];
      isNavigationInProgress := false;
      lastLocation := None;
      pluginDistanceRemaining, pluginDurationRemaining := None, None;
      events, view, routeReplay, requests, routeResets := [], Unstarted, None, [], 0;
      registered, listenerAdded, mapObservers := {}, false, {};
    }

    // ------------------------------------------------------------ lifecycle

    /** onCreate. `extra` is the intent's waypoint list (None: absent or not a list). */
    method OnCreate(g: Globals, extra: Option<seq<Waypoint>>)
      modifies this
      ensures Snapshot() == CreateSpec(old(Snapshot()), g, extra)
    {
      AttachObservers(g);
      if g.enableFreeDriveMode {
        routeReplay := Some(g.simulateRoute);
        view := FreeDrive;
        return;
      }
      ghost var s1 := Snapshot();
      if extra.Some? {
        points := extra.value;
      }
      AddPointsToWaypointSet();
      ghost var s3 := s1.(points := points).(waypointSet := s1.waypointSet + points);
      assert Snapshot() == s3;
      if |points| > 0 {
        RequestRoutes(waypointSet);
      }
    }

    /** The first part of onCreate: the view listener, the map observers the flags ask
        for, the seven engine observers and both broadcast receivers. */
    method AttachObservers(g: Globals)
      modifies this
      ensures Snapshot() == CreateViewSpec(old(Snapshot()), g)
    {
      listenerAdded := true;
      RegisterMapObservers(g);
      registered := registered + AllObservers;
      finishReceiver := true;
      addWayPointsReceiver := true;
    }

    /** `points.forEach { waypointSet.add(it) }`. */
    method AddPointsToWaypointSet()
      modifies this`waypointSet
      ensures waypointSet == old(waypointSet) + points
    {
      var k := 0;
      while k < |points|
        invariant 0 <= k <= |points|
        invariant waypointSet == old(waypointSet) + points[..k]
      {
        assert points[..k + 1] == points[..k] + [points[k]];
        waypointSet := waypointSet + [points[k]];
        k := k + 1;
      }
      assert points[..k] == points;
    }

    method OnDestroy(g: Globals)
      modifies this
      ensures Snapshot() == DestroySpec(old(Snapshot()), g)
    {
      UnregisterMapObservers(g);
      listenerAdded := false;
      registered := registered - AllObservers;
      finishReceiver := false;
      addWayPointsReceiver := false;
    }

    method RegisterMapObservers(g: Globals)
      modifies this`mapObservers
      ensures mapObservers == old(mapObservers)
                              + (if g.longPressDestinationEnabled then {LongClickObserver} else {})
                              + (if g.enableOnMapTapCallback then {MapClickObserver} else {})
    {
      if g.longPressDestinationEnabled {
        mapObservers := mapObservers + {LongClickObserver};
      }
      if g.enableOnMapTapCallback {
        mapObservers := mapObservers + {MapClickObserver};
      }
    }

    method UnregisterMapObservers(g: Globals)
      modifies this`mapObservers
      ensures mapObservers == old(mapObservers)
                              - (if g.longPressDestinationEnabled then {LongClickObserver} else {})
                              - (if g.enableOnMapTapCallback then {MapClickObserver} else {})
    {
      if g.longPressDestinationEnabled {
        mapObservers := mapObservers - {LongClickObserver};
      }
      if g.enableOnMapTapCallback {
        mapObservers := mapObservers - {MapClickObserver};
      }
    }

    method TryCancelNavigation()
      modifies this
      ensures Snapshot() == TryCancelSpec(old(Snapshot()))
    {
      if !isNavigationInProgress {
        return;
      }
      isNavigationInProgress := false;
      view := FreeDrive;
      events := events + [NavigationCancelled];
    }

    /** The STOP_NAVIGATION receiver. */
    method OnStopNavigationBroadcast()
      modifies this
      ensures Snapshot() == TryCancelSpec(old(Snapshot()))
    {
      TryCancelNavigation();
    }

    /** The ADD_WAYPOINTS receiver. */
    method OnAddWaypointsBroadcast(stops: Option<seq<Waypoint>>)
      modifies this
      ensures Snapshot() == AddWaypointsSpec(old(Snapshot()), stops)
    {
      if stops.Some? {
        points := points + stops.value;
      }
    }

    // ------------------------------------------------------------ view listener

    /** onFreeDrive, onDestinationPreview and onRoutePreview do nothing. */
    method OnFreeDrive()
      ensures Snapshot() == old(Snapshot())
    {
    }

    method OnDestinationPreview()
      ensures Snapshot() == old(Snapshot())
    {
    }

    method OnRoutePreview()
      ensures Snapshot() == old(Snapshot())
    {
    }

    method OnActiveNavigation()
      modifies this
      ensures Snapshot() == ActiveNavigationSpec(old(Snapshot()))
    {
      isNavigationInProgress := true;
    }

    method OnArrival()
      modifies this
      ensures Snapshot() == ArrivalStateSpec(old(Snapshot()))
    {
      isNavigationInProgress := false;
    }

    // ------------------------------------------------------------ route requests

    method RequestRoutes(waypoints: seq<Waypoint>)
      modifies this
      ensures Snapshot() == RequestRoutesSpec(old(Snapshot()), waypoints)
    {
      events := events + [RouteBuilding];
      requests := requests + [waypoints];
    }

    method OnRoutesReady(g: Globals, routes: seq<RouteId>)
      modifies this
      ensures Snapshot() == RoutesReadySpec(old(Snapshot()), g, routes)
    {
      events := events + [RouteBuilt(routes)];
      if |routes| == 0 {
        events := events + [RouteBuildNoRoutesFound];
        view := FreeDrive;
        return;
      }
      routeReplay := Some(g.simulateRoute);
      view := ActiveGuidance(routes);
    }

    method OnFailure()
      modifies this
      ensures Snapshot() == RouteFailureSpec(old(Snapshot()))
    {
      events := events + [RouteBuildFailed];
      view := FreeDrive;
    }

    method OnCanceled()
      modifies this
      ensures Snapshot() == RouteCanceledSpec(old(Snapshot()))
    {
      events := events + [RouteBuildCancelled];
      view := FreeDrive;
    }

    // ------------------------------------------------------------ engine observers

    /** `payloadThrows` says whether building the progress event throws; the exception
        is not caught, so the observer ends after writing the cached values. */
    method OnRouteProgressChanged(routeProgress: RouteProgress, payloadThrows: bool)
      modifies this
      ensures Snapshot() == ProgressSpec(old(Snapshot()), routeProgress, payloadThrows)
    {
      pluginDistanceRemaining := Some(routeProgress.distanceRemaining);
      pluginDurationRemaining := Some(routeProgress.durationRemaining);
      if !payloadThrows {
        events := events + [Progress(routeProgress)];
      }
    }

    /** Waypoint arrivals and leg starts do nothing. */
    method OnWaypointArrival()
      ensures Snapshot() == old(Snapshot())
    {
    }

    method OnNextRouteLegStart()
      ensures Snapshot() == old(Snapshot())
    {
    }

    method OnFinalDestinationArrival()
      modifies this
      ensures Snapshot() == FinalArrivalSpec(old(Snapshot()))
    {
      isNavigationInProgress := false;
      view := FreeDrive;
      events := events + [Event.OnArrival];
    }

    method OnNewLocationMatcherResult(location: Point)
      modifies this
      ensures Snapshot() == NewLocationSpec(old(Snapshot()), location)
    {
      lastLocation := Some(location);
    }

    /** Raw locations are ignored. */
    method OnNewRawLocation(rawLocation: Point)
      ensures Snapshot() == old(Snapshot())
    {
    }

    method OnBannerInstructions(text: string)
      modifies this
      ensures Snapshot() == BannerSpec(old(Snapshot()), text)
    {
      events := events + [BannerInstruction(text)];
    }

    method OnVoiceInstructions(text: string)
      modifies this
      ensures Snapshot() == VoiceSpec(old(Snapshot()), text)
    {
      events := events + [SpeechAnnouncement(text)];
    }

    method OnOffRouteStateChanged(offRoute: bool)
      modifies this
      ensures Snapshot() == OffRouteSpec(old(Snapshot()), offRoute)
    {
      if offRoute {
        events := events + [UserOffRoute];
      }
    }

    /** The routes observer. When `engineReenters`, the engine answers
        setRoutes(emptyList()) by calling this observer again with an empty list. */
    method OnRoutesChanged(navigationRoutes: seq<RouteId>, engineReenters: bool)
      modifies this
      ensures Snapshot() == RoutesChangedSpec(old(Snapshot()), navigationRoutes, engineReenters)
      decreases if isNavigationInProgress then 1 else 0
    {
      if |navigationRoutes| == 0 && isNavigationInProgress {
        isNavigationInProgress := false;
        view := FreeDrive;
        routeResets := routeResets + 1;
        if engineReenters {
          OnRoutesChanged([], engineReenters);
        }
        events := events + [NavigationCancelled];
      } else if |navigationRoutes| > 0 {
        if isNavigationInProgress {
          events := events + [RerouteAlong];
        }
      }
    }

    // ------------------------------------------------------------ map gestures

    /** The long-click listener; it never consumes the gesture. */
    method OnMapLongClick(point: Point) returns (consumed: bool)
      modifies this
      ensures Snapshot() == LongClickSpec(old(Snapshot()), point)
      ensures !consumed
    {
      if lastLocation.Some? {
        RequestRoutes([PlainWaypoint(lastLocation.value), PlainWaypoint(point)]);
      }
      consumed := false;
    }

    /** The map-click listener; it never consumes the gesture. */
    method OnMapClick(point: Point) returns (consumed: bool)
      modifies this
      ensures Snapshot() == MapClickSpec(old(Snapshot()), point)
      ensures !consumed
    {
      events := events + [OnMapTap(point)];
      consumed := false;
    }
  }
}
