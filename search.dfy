/**
 * The station, nearby-station, address and route search handlers of the router.
 * Each upstream call is a function parameter returning the already-parsed list
 * field; the handler logic is the record projection and the three-way shaping.
 */
module Search {
  import opened Shaping

  /** 404 message of the station-name search. */
  const NoSuchStation: string := "There is no such a station"
  /** 404 message of the nearby-station search, also used by the route search. */
  const NoStationNearby: string := "There is no bus station nearby"
  /** 404 message of the address search when geocoding finds nothing. */
  const AddressNotFound: string := "Address is wrong or not found"

  /** An entry of `busStationList`. */
  datatype StationRecord = StationRecord(regionName: string, stationId: string, stationName: string)
  /** An entry of `busStationAroundList`. */
  datatype AroundRecord = AroundRecord(regionName: string, stationId: string, stationName: string, distance: string)
  /** An entry of `busRouteList` returned by the route search. */
  datatype RouteRecord = RouteRecord(regionName: string, routeId: string, routeName: string, routeTypeName: string)

  datatype StationView = StationView(region: string, stationId: string, station: string)
  datatype AroundView = AroundView(region: string, stationId: string, station: string, distance: string)
  datatype RouteView = RouteView(region: string, routeId: string, route: string, routeType: string)

  /** A point as the nearby search takes it: `x` is the longitude, `y` the latitude. */
  datatype Coordinate = Coordinate(longitude: string, latitude: string)
  /** One geocoding candidate of `addresses`. */
  datatype Candidate = Candidate(x: string, y: string)

  function StationViewOf(rec: StationRecord): StationView
  {
    StationView(rec.regionName, rec.stationId, rec.stationName)
  }

  function AroundViewOf(rec: AroundRecord): AroundView
  {
    AroundView(rec.regionName, rec.stationId, rec.stationName, rec.distance)
  }

  function RouteViewOf(rec: RouteRecord): RouteView
  {
    RouteView(rec.regionName, rec.routeId, rec.routeName, rec.routeTypeName)
  }

  /** Whether view `v` is the station view built from record `rec`. */
  predicate StationFrom(v: StationView, rec: StationRecord)
  {
    v.region == rec.regionName && v.stationId == rec.stationId && v.station == rec.stationName
  }

  predicate AroundFrom(v: AroundView, rec: AroundRecord)
  {
    v.region == rec.regionName && v.stationId == rec.stationId && v.station == rec.stationName
    && v.distance == rec.distance
  }

  predicate RouteFrom(v: RouteView, rec: RouteRecord)
  {
    v.region == rec.regionName && v.routeId == rec.routeId && v.route == rec.routeName
    && v.routeType == rec.routeTypeName
  }

  /** GET /location/:name — stations whose name matches the keyword. */
  function SearchByName(body: Parsed<StationRecord>): (r: Outcome<StationView>)
    ensures body.Absent? <==> r == NotFound(NoSuchStation)
    ensures body.One? <==> r.Obj?
    ensures body.One? ==> StationFrom(r.view, body.record)
    ensures body.Many? <==> r.List?
    ensures body.Many? ==> |r.views| == |body.records|
    ensures body.Many? ==> forall i :: 0 <= i < |body.records| ==> StationFrom(r.views[i], body.records[i])
  {
    Shape(body, StationViewOf, NoSuchStation)
  }

  /** POST /coordinate — stations around a point, each with its distance. */
  function SearchNearby(body: Parsed<AroundRecord>): (r: Outcome<AroundView>)
    ensures body.Absent? <==> r == NotFound(NoStationNearby)
    ensures body.One? <==> r.Obj?
    ensures body.One? ==> AroundFrom(r.view, body.record)
    ensures body.Many? <==> r.List?
    ensures body.Many? ==> |r.views| == |body.records|
    ensures body.Many? ==> forall i :: 0 <= i < |body.records| ==> AroundFrom(r.views[i], body.records[i])
  {
    Shape(body, AroundViewOf, NoStationNearby)
  }

  /** GET /:number — routes whose number matches the keyword; its 404 reuses the nearby-station message. */
  function SearchByNumber(body: Parsed<RouteRecord>): (r: Outcome<RouteView>)
    ensures body.Absent? <==> r == NotFound(NoStationNearby)
    ensures body.One? <==> r.Obj?
    ensures body.One? ==> RouteFrom(r.view, body.record)
    ensures body.Many? <==> r.List?
    ensures body.Many? ==> |r.views| == |body.records|
    ensures body.Many? ==> forall i :: 0 <= i < |body.records| ==> RouteFrom(r.views[i], body.records[i])
  {
    Shape(body, RouteViewOf, NoStationNearby)
  }

  /** A nearby record without its distance, as the name search would list it. */
  function WithoutDistance(rec: AroundRecord): StationRecord
  {
    StationRecord(rec.regionName, rec.stationId, rec.stationName)
  }

  /** A nearby view without its distance. */
  function StationPart(v: AroundView): StationView
  {
    StationView(v.region, v.stationId, v.station)
  }

  /** The same list field with every record it holds passed through `f`. */
  function MapParsed<R, S>(body: Parsed<R>, f: R -> S): Parsed<S>
  {
    match body
    case Absent => Absent
    case One(x) => One(f(x))
    case Many(xs) => Many(MapRecords(xs, f))
  }

  /**
   * The nearby search extends the name search: on the same records it gives
   * the same reply shape, and dropping `distance` from its views gives exactly
   * the name search's views.
   */
  lemma NearbyExtendsStation(body: Parsed<AroundRecord>)
    ensures var near := SearchNearby(body);
            var named := SearchByName(MapParsed(body, WithoutDistance));
            && (near.NotFound? <==> named.NotFound?)
            && (near.Obj? <==> named.Obj?)
            && (near.Obj? ==> StationPart(near.view) == named.view)
            && (near.List? <==> named.List?)
            && (near.List? ==> |near.views| == |named.views|
                               && forall i :: 0 <= i < |near.views| ==> StationPart(near.views[i]) == named.views[i])
  {
  }

  /** The nearby search issued for a point, `searchAround` standing for the upstream call. */
  function SearchAt(at: Coordinate, searchAround: Coordinate -> Parsed<AroundRecord>): Outcome<AroundView>
  {
    SearchNearby(searchAround(at))
  }

  /** The reply of POST /address and the nearby searches it issued, in order. */
  datatype AddressReply = AddressReply(outcome: Outcome<AroundView>, searched: seq<Coordinate>)

  /**
   * POST /address: with no geocoding candidate, 404 and no station search;
   * otherwise one nearby search at the first candidate (x as longitude, y as latitude).
   */
  function SearchByAddress(addresses: seq<Candidate>, searchAround: Coordinate -> Parsed<AroundRecord>): (r: AddressReply)
    ensures |addresses| == 0 <==> r.searched == []
    ensures |addresses| == 0 ==> r.outcome == NotFound(AddressNotFound)
    ensures |addresses| > 0 ==> r.searched == [Coordinate(addresses[0].x, addresses[0].y)]
    ensures |addresses| > 0 ==> r.outcome == SearchAt(r.searched[0], searchAround)
  {
    if |addresses| == 0 then
      AddressReply(NotFound(AddressNotFound), [])
    else
      var at := Coordinate(addresses[0].x, addresses[0].y);
      AddressReply(SearchAt(at, searchAround), [at])
  }

  /**
   * Once the geocoder finds a candidate, the address search answers as
   * POST /coordinate would at the first candidate's point, and never with the
   * address-not-found message.
   */
  lemma AddressDelegatesToCoordinate(addresses: seq<Candidate>, searchAround: Coordinate -> Parsed<AroundRecord>)
    requires |addresses| > 0
    ensures SearchByAddress(addresses, searchAround).outcome
            == SearchNearby(searchAround(Coordinate(addresses[0].x, addresses[0].y)))
    ensures SearchByAddress(addresses, searchAround).outcome != NotFound(AddressNotFound)
  {
  }
}
