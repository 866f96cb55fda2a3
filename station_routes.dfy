/**
 * GET /:stationId/bus: the routes serving a station, each with the direction
 * the turning-point scan gives it. The handler maps every route record of
 * `busRouteList` to a view, fetching that route's stop sequence (the upstream
 * call is the parameter `fetch`, keyed by route id); the concurrent fan-out is
 * a sequential map here.
 */
module StationRoutes {
  import opened Wrappers
  import opened Shaping
  import opened Direction

  /** An entry of `busRouteList` for a station: the route and the station's position on it. */
  datatype RouteRecord = RouteRecord(regionName: string, routeId: string, routeName: string,
                                     routeTypeName: string, staOrder: int)

  /** The reply entry for one route; `direction` is unset when the scan never sets it. */
  datatype StationRouteView = StationRouteView(region: string, routeId: string, route: string,
                                               routeType: string, direction: Option<string>)

  /** Whether the view's identity fields are copied unchanged from the route record. */
  predicate SameRoute(v: StationRouteView, bus: RouteRecord)
  {
    v.region == bus.regionName && v.routeId == bus.routeId && v.route == bus.routeName
    && v.routeType == bus.routeTypeName
  }

  /** The view the per-route callback returns for `bus` and its stop sequence. */
  function ViewOf(bus: RouteRecord, stops: seq<RouteStop>): StationRouteView
  {
    StationRouteView(bus.regionName, bus.routeId, bus.routeName, bus.routeTypeName,
                     ResolvedDirection(stops, bus.staOrder))
  }

  /**
   * The per-route callback: build the view by field assignment, then scan the
   * stop sequence, overwriting the direction at every turning stop.
   */
  method BuildView(bus: RouteRecord, currentBus: seq<RouteStop>) returns (temp: StationRouteView)
    ensures SameRoute(temp, bus)
    ensures temp.direction == ResolvedDirection(currentBus, bus.staOrder)
  {
    temp := StationRouteView(bus.regionName, bus.routeId, bus.routeName, bus.routeTypeName, None);
    for i := 0 to |currentBus|
      invariant SameRoute(temp, bus)
      invariant temp.direction == ResolvedDirection(currentBus[..i], bus.staOrder)
    {
      var busStation := currentBus[i];
      ResolvedStep(currentBus, i, bus.staOrder);
      if busStation.turnYn == "Y" {
        var turningPoint := busStation.stationSeq;
        if bus.staOrder < turningPoint {
          temp := temp.(direction := Some(busStation.routeName));
        } else {
          temp := temp.(direction := Some(currentBus[0].stationName));
        }
      }
    }
    assert currentBus[..|currentBus|] == currentBus;
  }

  /** Whether every route's stop sequence came back as an array, as `forEach` needs. */
  predicate AllStopListsAreArrays(buses: seq<RouteRecord>, fetch: string -> Parsed<RouteStop>)
  {
    forall i :: 0 <= i < |buses| ==> fetch(buses[i].routeId).Many?
  }

  /** `body.map(...)`: one view per route, in route-list order. */
  function Assemble(buses: seq<RouteRecord>, fetch: string -> Parsed<RouteStop>): (views: seq<StationRouteView>)
    requires AllStopListsAreArrays(buses, fetch)
    ensures |views| == |buses|
    ensures forall i :: 0 <= i < |buses| ==> SameRoute(views[i], buses[i])
    ensures forall i :: 0 <= i < |buses| ==>
              views[i].direction == ResolvedDirection(fetch(buses[i].routeId).records, buses[i].staOrder)
    decreases |buses|
  {
    if buses == [] then []
    else [ViewOf(buses[0], fetch(buses[0].routeId).records)] + Assemble(buses[1..], fetch)
  }

  /**
   * A route whose stop sequence has no turning stop keeps its identity fields
   * in the reply and has no direction.
   */
  lemma UnflaggedRouteHasNoDirection(buses: seq<RouteRecord>, fetch: string -> Parsed<RouteStop>, i: nat)
    requires AllStopListsAreArrays(buses, fetch)
    requires i < |buses|
    requires forall j :: 0 <= j < |fetch(buses[i].routeId).records| ==> !IsTurn(fetch(buses[i].routeId).records[j])
    ensures SameRoute(Assemble(buses, fetch)[i], buses[i])
    ensures Assemble(buses, fetch)[i].direction == None
  {
  }

  /** Reply of a handler that may throw before answering. */
  datatype Reply<T> = Answered(payload: T) | Unanswered

  /**
   * The whole handler as written: `body.map` throws unless the route list is an
   * array, and `forEach` throws unless every stop sequence is; the error is
   * caught, logged, and no reply is sent.
   */
  function StationRoutesReply(body: Parsed<RouteRecord>, fetch: string -> Parsed<RouteStop>): (r: Reply<seq<StationRouteView>>)
    ensures r.Answered? <==> body.Many? && AllStopListsAreArrays(body.records, fetch)
    ensures r.Answered? ==> |r.payload| == |body.records|
    ensures r.Answered? ==> forall i :: 0 <= i < |body.records| ==> SameRoute(r.payload[i], body.records[i])
    ensures r.Answered? ==> forall i :: 0 <= i < |body.records| ==>
              r.payload[i].direction == ResolvedDirection(fetch(body.records[i].routeId).records, body.records[i].staOrder)
  {
    if body.Many? && AllStopListsAreArrays(body.records, fetch) then Answered(Assemble(body.records, fetch))
    else Unanswered
  }

  /** One route whose stop sequence is not an array loses the reply for every route of the station. */
  lemma OneBadRouteLosesAll(buses: seq<RouteRecord>, fetch: string -> Parsed<RouteStop>, i: nat)
    requires i < |buses| && !fetch(buses[i].routeId).Many?
    ensures StationRoutesReply(Many(buses), fetch) == Unanswered
  {
  }

  /** A station served by exactly one route gets a bare route record, and no reply at all. */
  lemma SingleRouteUnanswered(bus: RouteRecord, stops: seq<RouteStop>)
    ensures StationRoutesReply(One(bus), _ => Many(stops)) == Unanswered
    ensures StationRoutesReply(Many([bus]), _ => Many(stops)).Answered?
  {
  }

  /** A present field read as a list: the normalised records, and still absent when absent. */
  function Listed<R>(p: Parsed<R>): (q: Parsed<R>)
    ensures p.Absent? <==> q.Absent?
    ensures !p.Absent? ==> q.Many? && q.records == Normalize(p)
  {
    if p.One? then Many([p.record]) else p
  }

  /** The handler with bare records read as lists of one, keeping this handler's array reply. */
  function ListedStationRoutesReply(body: Parsed<RouteRecord>, fetch: string -> Parsed<RouteStop>): (r: Reply<seq<StationRouteView>>)
    ensures r.Answered? <==> !body.Absent? && AllPresent(Normalize(body), fetch)
    ensures r.Answered? ==> |r.payload| == |Normalize(body)|
    ensures r.Answered? ==> forall i :: 0 <= i < |r.payload| ==> SameRoute(r.payload[i], Normalize(body)[i])
    ensures r.Answered? ==> forall i :: 0 <= i < |r.payload| ==>
              r.payload[i].direction == ResolvedDirection(Normalize(fetch(Normalize(body)[i].routeId)), Normalize(body)[i].staOrder)
  {
    StationRoutesReply(Listed(body), id => Listed(fetch(id)))
  }

  /** Whether every route's stop sequence was found at all. */
  predicate AllPresent(buses: seq<RouteRecord>, fetch: string -> Parsed<RouteStop>)
  {
    forall i :: 0 <= i < |buses| ==> !fetch(buses[i].routeId).Absent?
  }

  /** With the correction, a single route is answered exactly like a list holding it. */
  lemma SingleRouteListed(bus: RouteRecord, fetch: string -> Parsed<RouteStop>)
    requires !fetch(bus.routeId).Absent?
    ensures ListedStationRoutesReply(One(bus), fetch) == ListedStationRoutesReply(Many([bus]), fetch)
    ensures ListedStationRoutesReply(One(bus), fetch).Answered?
    ensures |ListedStationRoutesReply(One(bus), fetch).payload| == 1
  {
  }

  /** The correction changes nothing where the handler already answered. */
  lemma ListedAgreesWhenAnswered(body: Parsed<RouteRecord>, fetch: string -> Parsed<RouteStop>)
    requires StationRoutesReply(body, fetch).Answered?
    ensures ListedStationRoutesReply(body, fetch) == StationRoutesReply(body, fetch)
  {
    var buses := body.records;
    var listed := id => Listed(fetch(id));
    var a, b := Assemble(buses, listed), Assemble(buses, fetch);
    assert forall i :: 0 <= i < |buses| ==> listed(buses[i].routeId) == fetch(buses[i].routeId);
    assert a == b;
  }
}
