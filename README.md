# where-is-my-bus: the router's shaping and direction logic

This project models the deterministic logic inside the Express handlers of
`src/controllers/router.js`. The router is a gateway in front of the Gyeonggi
bus information service (GBIS) and the Naver geocoder. The model starts from
payloads that are already parsed. Each upstream call is a function parameter.

- `Shaping`: the object-or-list branch every search handler applies to its list field.
  The field is absent, a bare record or an array. The reply is a 404 with a fixed
  message, one mapped object, or a list of mapped objects.
- `Search`: the station-name, nearby, route-number and address searches, with their
  field-by-field record projections and their 404 messages.
- `Direction`: the turning-point scan of `GET /:stationId/bus`, given as the
  specification "the last stop flagged `turnYn == "Y"` decides".
- `StationRoutes`: the per-route callback, modelled as a method whose loop overwrites
  the direction and is proved equal to that specification. It also holds the map over
  the station's routes and the whole handler, including when it never replies.
- `Arrival`: `POST /station/arrival`. The stop list is included only when `refresh`
  is the string `"false"`.

Three behaviours of the code that a reader might not expect, modelled as written:

- A bare record is answered as a bare object. It is not normalised into a list of one.
- A route with no turning stop is left without a direction; the scan raises no error.
- A failure on one route loses the reply for the whole station. The code does not drop
  only that route and answer the rest.

## Model

| member | source | states |
|---|---|---|
| `Shaping.MapRecords` | src/controllers/router.js:24-30 | `body.map` yields one record per input record, in order; record i is the projection of input i |
| `Shaping.Shape` | src/controllers/router.js:22-42 | not-found with the handler's message exactly when the field is absent; a bare object exactly when it is a single record; otherwise a list of the same length with element i projected from record i |
| `Shaping.ShapeCarriesNormalized` | src/controllers/router.js:22-38 | the records a found reply carries are the projection of the normalised list (absent = [], bare = [x], array = itself): nothing dropped, added or reordered |
| `Shaping.SingleObjectIsNotWrapped` | src/controllers/router.js:32-38 | a bare record is answered as `Obj`, different from the answer to a one-element array, though both normalise alike |
| `Shaping.EmptyArrayIsFound` | src/controllers/router.js:22-23 | an empty array is truthy, so it gets an empty list rather than a 404 |
| `Search.SearchByName` | src/controllers/router.js:22-42 | absent iff 404 "There is no such a station"; an array gives a list of equal length with region/stationId/station copied from regionName/stationId/stationName of record i; a bare record gives one such object |
| `Search.SearchNearby` | src/controllers/router.js:62-84 | the same three cases with the 404 "There is no bus station nearby"; each view also copies distance |
| `Search.SearchByNumber` | src/controllers/router.js:163-185 | the same three cases for routes (region, routeId, route = routeName, routeType = routeTypeName); its 404 text is the nearby-station message |
| `Search.NearbyExtendsStation` | src/controllers/router.js:22-38 | on the same records (distance dropped for the name search), the nearby and name searches give the same reply shape, and each nearby view without its distance is the name search's view at the same position |
| `Search.SearchByAddress` | src/controllers/router.js:104-143 | no candidates iff no station search, with 404 "Address is wrong or not found"; otherwise exactly one search, at longitude = addresses[0].x and latitude = addresses[0].y, and its shaped result is the reply |
| `Search.AddressDelegatesToCoordinate` | src/controllers/router.js:104-138 | with a candidate, the reply equals the nearby search at the first candidate's point and is never the address-not-found reply |
| `Direction.LastTurn` | src/controllers/router.js:220-231 | none iff no stop is flagged "Y"; otherwise an in-range flagged index with no flagged stop after it |
| `Direction.ResolvedStep` | src/controllers/router.js:220-231 | one more scanned stop: a flagged stop overwrites the direction with its verdict, any other stop leaves it |
| `Direction.LastTurnDecides` | src/controllers/router.js:214-231 | the last flagged stop alone decides the direction, whatever flagged stops come before it |
| `Direction.NoTurnNoDirection` | src/controllers/router.js:214-231 | with no flagged stop the direction stays unset |
| `Direction.SingleTurnAhead` | src/controllers/router.js:223-226 | one flagged stop at seq t and staOrder < t: the direction is that stop's routeName |
| `Direction.SingleTurnPassed` | src/controllers/router.js:227-228 | one flagged stop at seq t and staOrder >= t: the direction is the first stop's stationName |
| `Direction.UnflaggedTailKeepsDirection` | src/controllers/router.js:220-231 | appending unflagged stops to any sequence does not change the direction |
| `Direction.TwoStopExample` | src/controllers/router.js:223-228 | stops A (N, 1) and B (Y, 2, "R-out"): staOrder 1 gives "R-out", staOrder 3 gives "A" |
| `StationRoutes.BuildView` | src/controllers/router.js:214-232 | the callback's object keeps region, routeId, route and routeType from the route record, and its loop leaves exactly the direction the last flagged stop decides |
| `StationRoutes.Assemble` | src/controllers/router.js:202-236 | one view per route, in route-list order, with identity fields from its own record and direction resolved from that route's own stops and staOrder; requires every stop list to be an array |
| `StationRoutes.UnflaggedRouteHasNoDirection` | src/controllers/router.js:214-231 | a route with no flagged stop still has its identity fields in the reply, with no direction |
| `StationRoutes.StationRoutesReply` | src/controllers/router.js:197-242 | a reply is sent iff the route list and every route's stop list are arrays; the reply has one entry per route, in order, with its identity fields and the direction resolved from that route's own stops at its staOrder |
| `StationRoutes.OneBadRouteLosesAll` | src/controllers/router.js:202-241 | one route whose stop list is not an array leaves every route of the station without a reply |
| `StationRoutes.SingleRouteUnanswered` | src/controllers/router.js:199-203 | a station whose route list is a bare record gets no reply, while a one-element array of that route is answered |
| `StationRoutes.ListedStationRoutesReply` | src/controllers/router.js:197-242 | the corrected handler answers iff the route list and every stop list are present; one entry per normalised route, with identity fields and the direction resolved from its normalised stops |
| `StationRoutes.SingleRouteListed` | src/controllers/router.js:199-203 | with the correction, a single route is answered like a list holding it, with exactly one entry |
| `StationRoutes.ListedAgreesWhenAnswered` | src/controllers/router.js:197-242 | the correction changes no reply the handler already sent |
| `Arrival.ArrivalReply` | src/controllers/router.js:252-278 | stationList is present iff refresh is the string "false", and it is then the route's stop list; arrivalInfo is always the arrival item for (stationId, routeId, staOrder) |
| `Arrival.OnlyTheStringFalseRefreshes` | src/controllers/router.js:254 | boolean false, "False", "true", "" and a missing refresh all leave stationList out |

## Left out

- HTTP I/O is left out: the axios calls, URLs, headers and environment keys (`SERVICE_KEY`, `NAVER_ID`, `NAVER_KEY`). Each upstream call is a function parameter returning the parsed list field.
- XML-to-JSON conversion and `JSON.parse` are left out. The model starts from the parsed field, given as `Parsed` (absent, bare record, or array).
- `querystring.escape` on the station name and the address is left out. It only affects the URL, which is not modelled.
- The `Promise.all` fan-out is a sequential map. This does not change the result, which keeps route-list order.
- `console.error` logging is modelled only as "no reply sent" (`Unanswered`), and only for `/:stationId/bus`.
- Upstream failures in `/location`, `/coordinate` and `/:number` are not modelled. Each is caught and logged, and no reply is sent.
- Failures of the nearby search inside `/address` are not modelled. That call is not returned from the outer `.then` (router.js:112-139), so its errors escape the `.catch` at lines 145-147 as unhandled rejections.
- Failures in `/station/arrival` are not modelled. That handler has no catch at all, so an upstream error is an unhandled rejection and no reply is sent.
- The arrival item and the refreshed stop list are opaque type parameters. They are relayed without being read.
- `Number(...)` on non-numeric text (NaN comparisons) is left out. `staOrder` and `stationSeq` are integers.
- A record field missing from the upstream (copied as `undefined`) is left out. Every field is a string.
- In the `forEach` callback, the object `temp` is a datatype value that the loop reassigns. It is local to the callback and never aliased, so nothing is lost.
- `StationRoutes.Assemble`: requires every stop list to be an array, as `forEach` does. The non-array case is modelled by `StationRoutes.StationRoutesReply`.
- `src/controllers/server.js` (Express, cors and helmet wiring, listener start-up) is not part of this model.

## Findings

| source | as written | input that shows it | evidently intended | confidence | as-written member | corrected member |
|---|---|---|---|---|---|---|
| src/controllers/router.js:199-203 | `body.map` is called on `busRouteList` without an `Array.isArray` check. A station served by one route gets a bare record, `map` throws, the error is only logged, and no reply is sent | a route list that is the single record `One(bus)`, as XML-to-JSON conversion gives for one route | a single route answered like a one-element list: the search handlers accept a bare record, and a list of one keeps this handler's array reply shape | medium; not executed | `StationRoutes.SingleRouteUnanswered` | `StationRoutes.ListedStationRoutesReply` (with `StationRoutes.SingleRouteListed`) |
