/**
 * The object-or-list shaping that every search handler of the router applies to
 * the list field it reads from the parsed upstream payload
 * (`response.msgBody.<listName>`). XML-to-JSON conversion turns a list of one
 * element into a bare object, so the field is absent, a single record, or an
 * array of records; the handler answers not-found, one mapped object, or a
 * list of mapped objects accordingly.
 */
module Shaping {

  /** The addressed list field of a parsed upstream payload. */
  datatype Parsed<R> = Absent | One(record: R) | Many(records: seq<R>)

  /** What a search handler sends back: a 404 with a fixed message, a bare object, or an array. */
  datatype Outcome<V> = NotFound(message: string) | Obj(view: V) | List(views: seq<V>)

  /** `records.map(project)`: one projected record per input record, in input order. */
  function MapRecords<R, V>(records: seq<R>, project: R -> V): (views: seq<V>)
    ensures |views| == |records|
    ensures forall i :: 0 <= i < |records| ==> views[i] == project(records[i])
    decreases |records|
  {
    if records == [] then [] else [project(records[0])] + MapRecords(records[1..], project)
  }

  /** The three-way branch shared by the search handlers. */
  function Shape<R, V>(body: Parsed<R>, project: R -> V, message: string): (r: Outcome<V>)
    ensures r.NotFound? <==> body.Absent?
    ensures r.NotFound? ==> r.message == message
    ensures r.Obj? <==> body.One?
    ensures r.Obj? ==> r.view == project(body.record)
    ensures r.List? ==> |r.views| == |body.records|
    ensures r.List? ==> forall i :: 0 <= i < |body.records| ==> r.views[i] == project(body.records[i])
  {
    match body
    case Absent => NotFound(message)
    case One(x) => Obj(project(x))
    case Many(xs) => List(MapRecords(xs, project))
  }

  /** The normalised reading of the field: always a list, empty when absent. */
  function Normalize<R>(body: Parsed<R>): seq<R>
  {
    match body
    case Absent => []
    case One(x) => [x]
    case Many(xs) => xs
  }

  /** The records a found outcome carries, whatever its shape. */
  function Views<V>(r: Outcome<V>): seq<V>
  {
    match r
    case NotFound(_) => []
    case Obj(v) => [v]
    case List(vs) => vs
  }

  /**
   * Apart from the shape of the reply, a found outcome carries exactly the
   * projection of the normalised list: nothing is dropped, added or reordered.
   */
  lemma ShapeCarriesNormalized<R, V>(body: Parsed<R>, project: R -> V, message: string)
    ensures Views(Shape(body, project, message)) == MapRecords(Normalize(body), project)
  {
  }

  /**
   * A bare object is answered as a bare object, not as a list of one, even
   * though both normalise to the same list.
   */
  lemma SingleObjectIsNotWrapped<R, V>(x: R, project: R -> V, message: string)
    ensures Normalize(One(x)) == Normalize(Many([x]))
    ensures Shape(One(x), project, message) != Shape(Many([x]), project, message)
    ensures Shape(One(x), project, message) == Obj(project(x))
  {
  }

  /** An empty array is present (JavaScript treats `[]` as true), so it is answered as an empty list, not as not-found. */
  lemma EmptyArrayIsFound<R, V>(project: R -> V, message: string)
    ensures Shape(Many([]), project, message) == List([])
  {
  }
}
