/** Values shared by the two navigation-session controllers: waypoints, routes,
    the outbound events and the abstract state of the guidance engine and view. */
module NavTypes {

  datatype Option<+T> = None | Some(value: T)

  /** A map coordinate; the floating-point values are carried, never computed with. */
  datatype Point = Point(longitude: real, latitude: real)

  /** A stop of the route; a silent stop shapes the geometry but is not announced. */
  datatype Waypoint = Waypoint(point: Point, isSilent: bool)

  /** The Waypoint(point) constructor used for ad-hoc stops, taken to be not silent. */
  function PlainWaypoint(p: Point): Waypoint
  {
    Waypoint(p, false)
  }

  /** An opaque handle on one route returned by the routing engine. */
  type RouteId = nat

  /** The part of a route-progress snapshot the controllers read. */
  datatype RouteProgress = RouteProgress(distanceRemaining: real, durationRemaining: real)

  /** Everything a controller sends to the event sink. Payloads are opaque: the
      route list stands for its JSON serialisation, the text for the instruction text. */
  datatype Event =
    | RouteBuilding
    | RouteBuilt(routes: seq<RouteId>)
    | RouteBuildFailed
    | RouteBuildCancelled
    | RouteBuildNoRoutesFound
    | Progress(progress: RouteProgress)
    | BannerInstruction(text: string)
    | SpeechAnnouncement(text: string)
    | UserOffRoute
    | RerouteAlong
    | NavigationRunning
    | NavigationCancelled
    | OnArrival
    | OnMapTap(point: Point)

  /** The event type name as the event stream carries it. */
  function Name(e: Event): string
  {
    match e
    case RouteBuilding => "ROUTE_BUILDING"
    case RouteBuilt(_) => "ROUTE_BUILT"
    case RouteBuildFailed => "ROUTE_BUILD_FAILED"
    case RouteBuildCancelled => "ROUTE_BUILD_CANCELLED"
    case RouteBuildNoRoutesFound => "ROUTE_BUILD_NO_ROUTES_FOUND"
    case Progress(_) => "PROGRESS"
    case BannerInstruction(_) => "BANNER_INSTRUCTION"
    case SpeechAnnouncement(_) => "SPEECH_ANNOUNCEMENT"
    case UserOffRoute => "USER_OFF_ROUTE"
    case RerouteAlong => "REROUTE_ALONG"
    case NavigationRunning => "NAVIGATION_RUNNING"
    case NavigationCancelled => "NAVIGATION_CANCELLED"
    case OnArrival => "ON_ARRIVAL"
    case OnMapTap(_) => "ON_MAP_TAP"
  }

  /** How many events of type `name` the log holds. */
  function Count(log: seq<Event>, name: string): nat
  {
    if |log| == 0 then 0
    else Count(log[..|log| - 1], name) + (if Name(log[|log| - 1]) == name then 1 else 0)
  }

  lemma CountEmit(log: seq<Event>, e: Event, name: string)
    ensures Count(log + [e], name) == Count(log, name) + (if Name(e) == name then 1 else 0)
  {
    assert (log + [e])[..|log|] == log;
  }

  lemma {:induction false} CountAppend(a: seq<Event>, b: seq<Event>, name: string)
    ensures Count(a + b, name) == Count(a, name) + Count(b, name)
    decreases |b|
  {
    if |b| > 0 {
      var b' := b[..|b| - 1];
      assert a + b == (a + b') + [b[|b| - 1]];
      assert b == b' + [b[|b| - 1]];
      CountAppend(a, b', name);
      CountEmit(a + b', b[|b| - 1], name);
      CountEmit(b', b[|b| - 1], name);
    } else {
      assert a + b == a;
    }
  }

  /** `after` is `before` with at most one event appended, and that one is not of type `name`. */
  predicate GrowsWithout(before: seq<Event>, after: seq<Event>, name: string)
  {
    after == before
    || (|after| == |before| + 1 && after[..|before|] == before && Name(after[|before|]) != name)
  }

  lemma CountGrowsWithout(before: seq<Event>, after: seq<Event>, name: string)
    requires GrowsWithout(before, after, name)
    ensures Count(after, name) == Count(before, name)
  {
    if after != before {
      assert after == before + [after[|before|]];
      CountEmit(before, after[|before|], name);
    }
  }

  /** What the navigation view shows, reduced to the route set it runs on. */
  datatype ViewMode =
    | Unstarted
    | FreeDrive
    | RoutePreview(previewRoutes: seq<RouteId>)
    | ActiveGuidance(guidedRoutes: seq<RouteId>)

  /** The seven observers a controller registers with the guidance engine. */
  datatype Observer =
    | BannerInstructionsObserver
    | VoiceInstructionsObserver
    | OffRouteObserver
    | RoutesObserver
    | LocationObserver
    | RouteProgressObserver
    | ArrivalObserver

  const AllObservers: set<Observer> :=
    {BannerInstructionsObserver, VoiceInstructionsObserver, OffRouteObserver,
     RoutesObserver, LocationObserver, RouteProgressObserver, ArrivalObserver}

  /** The engine sees either none of the seven observers or all of them. */
  predicate AllOrNothing(registered: set<Observer>)
  {
    registered == {} || registered == AllObservers
  }
}
