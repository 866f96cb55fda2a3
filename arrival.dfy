/**
 * POST /station/arrival: the reply always carries the upstream arrival item
 * (relayed without being read) and carries the route's stop list only when the
 * request body's `refresh` is exactly the string "false". Both upstream calls
 * are function parameters.
 */
module Arrival {
  import opened Wrappers

  /** A value of the JSON request body, as far as strict equality can tell them apart. */
  datatype BodyValue = Text(text: string) | Flag(flag: bool) | Number(number: int) | Missing

  /** The request body `{ stationId, routeId, staOrder, refresh }`. */
  datatype ArrivalRequest = ArrivalRequest(stationId: BodyValue, routeId: BodyValue, staOrder: BodyValue,
                                           refresh: BodyValue)

  /** The reply: `stationList` present or not, `arrivalInfo` always present. */
  datatype ArrivalResult<S, A> = ArrivalResult(stationList: Option<S>, arrivalInfo: A)

  /** `refresh === "false"`. */
  predicate WantsStationList(req: ArrivalRequest)
  {
    req.refresh == Text("false")
  }

  function ArrivalReply<S, A>(req: ArrivalRequest, routeStations: BodyValue -> S,
                              arrivalItem: (BodyValue, BodyValue, BodyValue) -> A): (r: ArrivalResult<S, A>)
    ensures r.stationList.Some? <==> req.refresh == Text("false")
    ensures r.stationList.Some? ==> r.stationList.value == routeStations(req.routeId)
    ensures r.arrivalInfo == arrivalItem(req.stationId, req.routeId, req.staOrder)
  {
    var stationList := if WantsStationList(req) then Some(routeStations(req.routeId)) else None;
    ArrivalResult(stationList, arrivalItem(req.stationId, req.routeId, req.staOrder))
  }

  /**
   * Only the string "false" asks for the stop list: the boolean false, other
   * spellings and a missing field all leave it out.
   */
  lemma OnlyTheStringFalseRefreshes<S, A>(req: ArrivalRequest, routeStations: BodyValue -> S,
                                          arrivalItem: (BodyValue, BodyValue, BodyValue) -> A)
    requires req.refresh in {Flag(false), Text("False"), Text("true"), Text(""), Missing}
    ensures ArrivalReply(req, routeStations, arrivalItem).stationList == None
  {
  }
}
