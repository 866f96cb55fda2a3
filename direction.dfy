/**
 * The turning-point scan of GET /:stationId/bus. For one route serving the
 * station, the scan walks the route's stop sequence (`busRouteStationList`)
 * and, at every stop flagged `turnYn == "Y"`, overwrites the direction: the
 * turning stop's route name when the station lies before the turn, the first
 * stop's name otherwise. No flagged stop leaves the direction unset; among
 * several, the last one decides.
 */
module Direction {
  import opened Wrappers

  /** One entry of a route's stop sequence; `stationSeq` is read through `Number(...)`. */
  datatype RouteStop = RouteStop(stationSeq: int, stationName: string, routeName: string, turnYn: string)

  predicate IsTurn(stop: RouteStop)
  {
    stop.turnYn == "Y"
  }

  /** The index of the last turning stop of `stops`, if there is one. */
  function LastTurn(stops: seq<RouteStop>): (k: Option<nat>)
    ensures k.None? <==> forall i :: 0 <= i < |stops| ==> !IsTurn(stops[i])
    ensures k.Some? ==> k.value < |stops| && IsTurn(stops[k.value])
    ensures k.Some? ==> forall j :: k.value < j < |stops| ==> !IsTurn(stops[j])
    decreases |stops|
  {
    if stops == [] then None
    else if IsTurn(stops[|stops| - 1]) then Some(|stops| - 1)
    else LastTurn(stops[..|stops| - 1])
  }

  /** What the scan writes on meeting turning stop `turn`, `first` being the sequence's first stop. */
  function Verdict(turn: RouteStop, staOrder: int, first: RouteStop): string
  {
    if staOrder < turn.stationSeq then turn.routeName else first.stationName
  }

  /** The direction the scan leaves behind: decided by the last turning stop alone. */
  function ResolvedDirection(stops: seq<RouteStop>, staOrder: int): Option<string>
  {
    match LastTurn(stops)
    case None => None
    case Some(k) => Some(Verdict(stops[k], staOrder, stops[0]))
  }

  /** One more step of the scan: a turning stop overwrites the direction, any other stop keeps it. */
  lemma ResolvedStep(stops: seq<RouteStop>, i: nat, staOrder: int)
    requires i < |stops|
    ensures ResolvedDirection(stops[..i + 1], staOrder)
            == if IsTurn(stops[i]) then Some(Verdict(stops[i], staOrder, stops[0]))
               else ResolvedDirection(stops[..i], staOrder)
  {
  }

  /** Only the last turning stop matters: earlier flagged stops are overwritten. */
  lemma LastTurnDecides(stops: seq<RouteStop>, k: nat, staOrder: int)
    requires k < |stops| && IsTurn(stops[k])
    requires forall j :: k < j < |stops| ==> !IsTurn(stops[j])
    ensures ResolvedDirection(stops, staOrder) == Some(Verdict(stops[k], staOrder, stops[0]))
  {
  }

  /** With no flagged stop, the direction is never set. */
  lemma NoTurnNoDirection(stops: seq<RouteStop>, staOrder: int)
    requires forall i :: 0 <= i < |stops| ==> !IsTurn(stops[i])
    ensures ResolvedDirection(stops, staOrder) == None
  {
  }

  /** A station before the only turning stop heads toward it: the direction is that stop's route name. */
  lemma SingleTurnAhead(stops: seq<RouteStop>, t: nat, staOrder: int)
    requires t < |stops| && IsTurn(stops[t])
    requires forall j :: 0 <= j < |stops| && j != t ==> !IsTurn(stops[j])
    requires staOrder < stops[t].stationSeq
    ensures ResolvedDirection(stops, staOrder) == Some(stops[t].routeName)
  {
  }

  /** A station at or past the only turning stop heads back: the direction is the first stop's name. */
  lemma SingleTurnPassed(stops: seq<RouteStop>, t: nat, staOrder: int)
    requires t < |stops| && IsTurn(stops[t])
    requires forall j :: 0 <= j < |stops| && j != t ==> !IsTurn(stops[j])
    requires staOrder >= stops[t].stationSeq
    ensures ResolvedDirection(stops, staOrder) == Some(stops[0].stationName)
  {
  }

  /** Appending stops that are not flagged leaves the direction as it was. */
  lemma {:induction false} UnflaggedTailKeepsDirection(stops: seq<RouteStop>, tail: seq<RouteStop>, staOrder: int)
    requires forall j :: 0 <= j < |tail| ==> !IsTurn(tail[j])
    ensures ResolvedDirection(stops + tail, staOrder) == ResolvedDirection(stops, staOrder)
    decreases |tail|
  {
    if tail != [] {
      var s := stops + tail;
      var n := |s| - 1;
      assert s[..n] == stops + tail[..|tail| - 1];
      assert !IsTurn(s[n]) by { assert s[n] == tail[|tail| - 1]; }
      ResolvedStep(s, n, staOrder);
      assert s[..n + 1] == s;
      UnflaggedTailKeepsDirection(stops, tail[..|tail| - 1], staOrder);
    } else {
      assert stops + tail == stops;
    }
  }

  /** The two-stop sequence: A (not flagged, seq 1) then B (flagged, seq 2, route name R-out). */
  lemma TwoStopExample()
    ensures var stops := [RouteStop(1, "A", "R", "N"), RouteStop(2, "B", "R-out", "Y")];
            ResolvedDirection(stops, 1) == Some("R-out") && ResolvedDirection(stops, 3) == Some("A")
  {
  }
}
