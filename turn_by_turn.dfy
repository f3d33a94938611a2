/** The embedded-view navigation controller. Its fields are those of the source, except
    that the option fields setOptions writes are held together in one Options record;
    the navigation view, the routing and guidance engines and the event sink are
    reduced to the fields after `isNavigationCanceled`. Every method is proved to leave
    the object in the state its function in TurnByTurnSpec gives. */
module TurnByTurn {
  import opened NavTypes
  import opened TurnByTurnSpec

  class TurnByTurn {
    const activity: ActivityId
    const androidRelease: string

    var lastLocation: Option<Point>
    var addedWaypoints: seq<Waypoint>

    /** navigationMode, simulateRoute, the map styles, language, voice units, the
        initial camera and the feature flags of the source, as one record. */
    var options: Options
    var distanceRemaining: Option<real>
    var durationRemaining: Option<real>

    var currentRoutes: Option<seq<RouteId>>
    var isNavigationCanceled: bool

    /** Every event sent to the sink, oldest first. */
    var events: seq<Event>
    /** The navigation view's mode and its route-replay setting (None: never set). */
    var view: ViewMode
    var routeReplay: Option<bool>
    /** Every route request issued to the routing engine, oldest first. */
    var requests: seq<RouteRequest>
    /** The observers registered with the guidance engine. */
    var registered: set<Observer>
    /** Whether this object is the handler of its method channel and of its event channel. */
    var methodHandlerAttached: bool
    var streamHandlerAttached: bool
    /** The plugin-wide event sink and free-drive flag, which this controller writes. */
    var eventSink: Option<SinkId>
    var enableFreeDriveMode: bool

    ghost function Snapshot(): Session
      reads this
    {
      Session(activity, androidRelease, options, addedWaypoints, currentRoutes,
              isNavigationCanceled, distanceRemaining, durationRemaining, lastLocation,
              events, view, routeReplay, requests, registered,
              methodHandlerAttached, streamHandlerAttached, eventSink, enableFreeDriveMode)
    }

    constructor (act: ActivityId, release: string)
      ensures Snapshot() == NewSession(act, release)
    {
      activity, androidRelease := act, release;
      lastLocation, addedWaypoints := None, [];
      options := InitialOptions;
      distanceRemaining, durationRemaining := None, None;
      currentRoutes, isNavigationCanceled := None, false;
      events, view, routeReplay, requests, registered := [], Unstarted, None, [], {};
      methodHandlerAttached, streamHandlerAttached := false, false;
      eventSink, enableFreeDriveMode := None, false;
    }

    method InitFlutterChannelHandlers()
      modifies this
      ensures Snapshot() == InitChannelHandlersSpec(old(Snapshot()))
    {
      methodHandlerAttached := true;
      streamHandlerAttached := true;
    }

    /** Sets up the navigation app (not modelled) and registers the observers. */
    method InitNavigation()
      modifies this
      ensures Snapshot() == RegisterSpec(old(Snapshot()))
    {
      RegisterObservers();
    }

    method OnMethodCall(call: MethodCall) returns (reply: Reply)
      modifies this
      ensures (Snapshot(), reply) == CallSpec(old(Snapshot()), call)
    {
      match MethodOf(call.name)
      case PlatformVersionMethod =>
        reply := Success(Text("Android " + androidRelease));
      case BuildRouteMethod =>
        reply := BuildRoute(call.arguments);
      case ClearRouteMethod =>
        reply := ClearRoute();
      case StartFreeDriveMethod =>
        enableFreeDriveMode := true;
        StartFreeDrive();
        reply := NoReply;
      case StartNavigationMethod =>
        enableFreeDriveMode := false;
        reply := HandleStartNavigation(call.arguments);
      case FinishNavigationMethod =>
        reply := HandleFinishNavigation();
      case DistanceRemainingMethod =>
        reply := Success(MaybeReal(distanceRemaining));
      case DurationRemainingMethod =>
        reply := Success(MaybeReal(durationRemaining));
      case UnknownMethod =>
        reply := NotImplemented;
    }

    method BuildRoute(args: Option<Arguments>) returns (reply: Reply)
      modifies this
      ensures (Snapshot(), reply) == BuildRouteSpec(old(Snapshot()), args)
    {
      ghost var s0 := Snapshot();
      isNavigationCanceled := false;
      if args.Some? {
        SetOptions(args.value);
      }
      addedWaypoints := [];
      ghost var s3 := (if args.Some? then SetOptionsSpec(s0.(isNavigationCanceled := false), args.value)
                       else s0.(isNavigationCanceled := false)).(addedWaypoints := []);
      assert Snapshot() == s3;
      if args.None? || args.value.wayPoints.None? {
        reply := Threw;
        return;
      }
      var complete := AddWaypoints(args.value.wayPoints.value);
      assert Snapshot() == s3.(addedWaypoints := ParsedWaypoints(args.value.wayPoints.value));
      if !complete {
        reply := Threw;
        return;
      }
      GetRoute();
      reply := Success(BoolValue(true));
    }

    /** The loop of buildRoute over the waypoint entries, in iteration order. It stops
        (the source throws) at the first entry whose casts fail; `complete` says
        whether every entry was added. */
    method AddWaypoints(points: seq<WaypointEntry>) returns (complete: bool)
      modifies this`addedWaypoints
      ensures addedWaypoints == old(addedWaypoints) + ParsedWaypoints(points)
      ensures complete <==> AllWellFormed(points)
    {
      ghost var parsed := ParsedWaypoints(points);
      var i := 0;
      while i < |points|
        invariant i <= |parsed|
        invariant addedWaypoints == old(addedWaypoints) + parsed[..i]
      {
        var point := points[i];
        if point.latitude.None? || point.longitude.None? || point.isSilent.None? {
          assert !WellFormed(points[i]);
          assert |parsed| == i;
          complete := false;
          return;
        }
        assert parsed[..i + 1] == parsed[..i] + [parsed[i]];
        addedWaypoints := addedWaypoints + [Waypoint(Point(point.longitude.value, point.latitude.value), point.isSilent.value)];
        i := i + 1;
      }
      assert parsed[..i] == parsed;
      complete := true;
    }

    method GetRoute()
      modifies this
      ensures Snapshot() == GetRouteSpec(old(Snapshot()))
    {
      requests := requests + [RouteRequest(addedWaypoints, options.navigationMode, options.navigationLanguage,
                                           options.alternatives, options.navigationVoiceUnits,
                                           options.bannerInstructionsEnabled,
                                           options.voiceInstructionsEnabled)];
    }

    /** The route-request callback: routes ready. */
    method OnRoutesReady(routes: seq<RouteId>)
      modifies this
      ensures Snapshot() == RoutesReadySpec(old(Snapshot()), routes)
    {
      ghost var s0 := Snapshot();
      currentRoutes := Some(routes);
      events := events + [RouteBuilt(routes)];
      routeReplay := Some(options.simulateRoute);
      view := RoutePreview(routes);
      assert Snapshot() == s0.(currentRoutes := Some(routes), events := s0.events + [RouteBuilt(routes)],
                               routeReplay := Some(s0.options.simulateRoute), view := RoutePreview(routes));
    }

    /** The route-request callback: failure. */
    method OnFailure()
      modifies this
      ensures Snapshot() == RouteFailureSpec(old(Snapshot()))
    {
      events := events + [RouteBuildFailed];
    }

    /** The route-request callback: cancelled. */
    method OnCanceled()
      modifies this
      ensures Snapshot() == RouteCanceledSpec(old(Snapshot()))
    {
      events := events + [RouteBuildCancelled];
    }

    method ClearRoute() returns (reply: Reply)
      modifies this
      ensures (Snapshot(), reply) == ClearRouteSpec(old(Snapshot()))
    {
      currentRoutes := None;
      view := FreeDrive;
      events := events + [NavigationCancelled];
      reply := Success(BoolValue(true));
    }

    method StartFreeDrive()
      modifies this
      ensures Snapshot() == StartFreeDriveSpec(old(Snapshot()))
    {
      view := FreeDrive;
    }

    /** startNavigation(methodCall, result). */
    method HandleStartNavigation(args: Option<Arguments>) returns (reply: Reply)
      modifies this
      ensures (Snapshot(), reply) == StartNavigationSpec(old(Snapshot()), args)
    {
      if args.Some? {
        SetOptions(args.value);
      }
      StartNavigation();
      reply := Success(BoolValue(currentRoutes.Some?));
    }

    /** finishNavigation(methodCall, result). */
    method HandleFinishNavigation() returns (reply: Reply)
      modifies this
      ensures (Snapshot(), reply) == FinishNavigationSpec(old(Snapshot()))
    {
      FinishNavigation();
      reply := Success(BoolValue(currentRoutes.Some?));
    }

    /** The argument-less startNavigation. */
    method StartNavigation()
      modifies this
      ensures Snapshot() == StartGuidanceSpec(old(Snapshot()))
    {
      if currentRoutes.None? {
        events := events + [NavigationCancelled];
        return;
      }
      view := ActiveGuidance(currentRoutes.value);
      events := events + [NavigationRunning];
    }

    /** The argument-less finishNavigation; its isOffRouted parameter is unused. */
    method FinishNavigation()
      modifies this
      ensures Snapshot() == FinishSpec(old(Snapshot()))
    {
      view := FreeDrive;
      isNavigationCanceled := true;
      events := events + [NavigationCancelled];
    }

    method SetOptions(arguments: Arguments)
      modifies this
      ensures Snapshot() == SetOptionsSpec(old(Snapshot()), arguments)
    {
      options := ApplyArguments(options, arguments);
    }

    method RegisterObservers()
      modifies this
      ensures Snapshot() == RegisterSpec(old(Snapshot()))
    {
      registered := registered + {BannerInstructionsObserver, VoiceInstructionsObserver, OffRouteObserver,
                                  RoutesObserver, LocationObserver, RouteProgressObserver, ArrivalObserver};
    }

    method UnregisterObservers()
      modifies this
      ensures Snapshot() == UnregisterSpec(old(Snapshot()))
    {
      registered := registered - {BannerInstructionsObserver, VoiceInstructionsObserver, OffRouteObserver,
                                  RoutesObserver, LocationObserver, RouteProgressObserver, ArrivalObserver};
    }

    method OnListen(sink: SinkId)
      modifies this
      ensures Snapshot() == ListenSpec(old(Snapshot()), sink)
    {
      eventSink := Some(sink);
    }

    method OnCancel()
      modifies this
      ensures Snapshot() == CancelListenSpec(old(Snapshot()))
    {
      eventSink := None;
    }

    // ------------------------------------------------------------ observers

    method OnNewLocationMatcherResult(location: Point)
      modifies this
      ensures Snapshot() == NewLocationSpec(old(Snapshot()), location)
    {
      lastLocation := Some(location);
    }

    /** Raw locations are ignored. */
    method OnNewRawLocation(location: Point)
      ensures Snapshot() == old(Snapshot())
    {
    }

    method OnBannerInstructions(text: string)
      modifies this
      ensures Snapshot() == BannerSpec(old(Snapshot()), text)
    {
      events := events + [BannerInstruction(text)];
    }

    method OnVoiceInstructions(text: string)
      modifies this
      ensures Snapshot() == VoiceSpec(old(Snapshot()), text)
    {
      events := events + [SpeechAnnouncement(text)];
    }

    method OnOffRouteStateChanged(offRoute: bool)
      modifies this
      ensures Snapshot() == OffRouteSpec(old(Snapshot()), offRoute)
    {
      if offRoute {
        events := events + [UserOffRoute];
      }
    }

    method OnRoutesChanged(navigationRoutes: seq<RouteId>)
      modifies this
      ensures Snapshot() == RoutesChangedSpec(old(Snapshot()), navigationRoutes)
    {
      if |navigationRoutes| > 0 {
        events := events + [RerouteAlong];
      }
    }

    /** `payloadThrows` says whether building the progress event throws; the source
        swallows that exception after the cached values were already written. */
    method OnRouteProgressChanged(routeProgress: RouteProgress, payloadThrows: bool)
      modifies this
      ensures Snapshot() == ProgressSpec(old(Snapshot()), routeProgress, payloadThrows)
    {
      if !isNavigationCanceled {
        distanceRemaining := Some(routeProgress.distanceRemaining);
        durationRemaining := Some(routeProgress.durationRemaining);
        if !payloadThrows {
          events := events + [Progress(routeProgress)];
        }
      }
    }

    method OnFinalDestinationArrival()
      modifies this
      ensures Snapshot() == FinalArrivalSpec(old(Snapshot()))
    {
      view := FreeDrive;
      events := events + [OnArrival];
    }

    /** Leg starts and waypoint arrivals are ignored. */
    method OnNextRouteLegStart()
      ensures Snapshot() == old(Snapshot())
    {
    }

    method OnWaypointArrival()
      ensures Snapshot() == old(Snapshot())
    {
    }

    // ------------------------------------------------------------ lifecycle

    method OnActivityDestroyed(destroyed: ActivityId)
      modifies this
      ensures Snapshot() == ActivityDestroyedSpec(old(Snapshot()), destroyed)
    {
      if destroyed != activity {
        return;
      }
      if !isNavigationCanceled {
        return;
      }
      UnregisterObservers();
      methodHandlerAttached := false;
      streamHandlerAttached := false;
    }
  }
}
