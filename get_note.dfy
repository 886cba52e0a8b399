/**
 * `GET /notes/{id}`: one lookup by key; 400, 404, 200 or 500. It reads the
 * table and never changes it, so it is a function of the table's content.
 */
module GetNote {
  import opened Wrappers
  import opened Notes

  /** The get handler on a table holding `items`; `fault` is the lookup's exception, if any. */
  function Handler(items: map<string, Item>, event: PathEvent, fault: Option<string>): (r: Response)
    ensures r.statusCode in {200, 400, 404, 500}
    ensures r.headers == JsonHeaders
    ensures r.statusCode == 200 <==> PathId(event).Some? && fault.None? && PathId(event).value in items
  {
    match PathId(event)
    case None => Resp(400, Error(MissingId))
    case Some(id) =>
      if fault.Some? then Resp(500, ErrorFor(fault.value, id))
      else match Find(items, id)
        case None => Resp(404, ErrorFor(NotFound, id))
        case Some(item) => Resp(200, Found(item))
  }

  /** A missing or null `pathParameters`, or a missing or empty id, gets 400 whatever the table
      holds and whether or not the table would fail: the table is not consulted. */
  lemma MissingIdRejected(items: map<string, Item>, other: map<string, Item>, event: PathEvent, fault: Option<string>)
    requires event.pathParameters.None? || "id" !in event.pathParameters.value || event.pathParameters.value["id"] == ""
    ensures Handler(items, event, fault) == Resp(400, Error(MissingId))
    ensures Handler(items, event, fault) == Handler(other, event, None)
  {
  }

  /** A request whose `pathParameters` hold a non-empty `id` that is not in the table gets 404
      with the id echoed. */
  lemma UnknownIdNotFound(items: map<string, Item>, event: PathEvent, id: string)
    requires event.pathParameters.Some? && "id" in event.pathParameters.value && event.pathParameters.value["id"] == id
    requires id != [] && id !in items
    ensures Handler(items, event, None) == Resp(404, ErrorFor(NotFound, id))
  {
  }

  /** A request whose `pathParameters` hold a non-empty `id` that is in the table gets 200 with
      exactly the stored item. */
  lemma KnownIdFound(items: map<string, Item>, event: PathEvent, id: string)
    requires event.pathParameters.Some? && "id" in event.pathParameters.value && event.pathParameters.value["id"] == id
    requires id != [] && id in items
    ensures Handler(items, event, None) == Resp(200, Found(items[id]))
  {
  }

  /** A failing lookup gets 500 with the fault's message and the id echoed. */
  lemma LookupFaultFails(items: map<string, Item>, event: PathEvent, id: string, message: string)
    requires event.pathParameters.Some? && "id" in event.pathParameters.value && event.pathParameters.value["id"] == id
    requires id != []
    ensures Handler(items, event, Some(message)) == Resp(500, ErrorFor(message, id))
  {
  }

  /** The answer depends on the table only through the entry of the requested id: two tables
      that agree on that key give the same answer. */
  lemma AnswerDependsOnlyOnKey(items: map<string, Item>, other: map<string, Item>, event: PathEvent,
                               fault: Option<string>)
    requires PathId(event).Some?
    requires var id := PathId(event).value; (id in items <==> id in other) && (id in items ==> items[id] == other[id])
    ensures Handler(items, event, fault) == Handler(other, event, fault)
  {
  }
}
