/**
 * `DELETE /notes/{id}`: look the id up, answer 404 if it is absent, otherwise
 * delete it and answer 200; 400 for a missing id and 500 for a failing table.
 */
module DeleteNote {
  import opened Wrappers
  import opened Notes

  /** What one call of the handler does to a table holding `items`; `getFault` and `deleteFault`
      are the exceptions of the lookup and of the deletion, if any. */
  function Outcome(items: map<string, Item>, event: PathEvent, getFault: Option<string>, deleteFault: Option<string>)
    : (o: Effect)
    ensures o.response.statusCode in {200, 400, 404, 500}
    ensures o.response.headers == JsonHeaders
    ensures o.response.statusCode == 200 <==>
      PathId(event).Some? && PathId(event).value in items && getFault.None? && deleteFault.None?
    ensures o.items == if o.response.statusCode == 200 then items - {PathId(event).value} else items
  {
    match PathId(event)
    case None => Effect(Resp(400, Error(MissingId)), items, [])
    case Some(id) =>
      if getFault.Some? then Effect(Resp(500, ErrorFor(getFault.value, id)), items, [GetCall(id)])
      else if id !in items then Effect(Resp(404, ErrorFor(NotFound, id)), items, [GetCall(id)])
      else if deleteFault.Some? then
        Effect(Resp(500, ErrorFor(deleteFault.value, id)), items, [GetCall(id), DeleteCall(id)])
      else Effect(Resp(200, Deleted(true, id)), items - {id}, [GetCall(id), DeleteCall(id)])
  }

  /** The delete handler, run against `table`. The id is known before the first table call,
      so every 500 can echo it. */
  method Handler(table: Table, event: PathEvent, getFault: Option<string>, deleteFault: Option<string>)
    returns (r: Response)
    modifies table
    ensures var o := Outcome(old(table.items), event, getFault, deleteFault);
      && r == o.response
      && table.items == o.items
      && table.log == old(table.log) + o.calls
  {
    var noteId := PathId(event);
    if noteId.None? {
      return Resp(400, Error(MissingId));
    }
    var id := noteId.value;
    var existing := table.GetItem(id, getFault);
    if existing.Failure? {
      return Resp(500, ErrorFor(existing.error, id));
    }
    if existing.value.None? {
      return Resp(404, ErrorFor(NotFound, id));
    }
    var failure := table.DeleteItem(id, deleteFault);
    if failure.Some? {
      return Resp(500, ErrorFor(failure.value, id));
    }
    r := Resp(200, Deleted(true, id));
  }

  /** A missing or null `pathParameters`, or a missing or empty id, gets 400 and no table call. */
  lemma MissingIdRejected(items: map<string, Item>, event: PathEvent, getFault: Option<string>, deleteFault: Option<string>)
    requires event.pathParameters.None? || "id" !in event.pathParameters.value || event.pathParameters.value["id"] == ""
    ensures Outcome(items, event, getFault, deleteFault) == Effect(Resp(400, Error(MissingId)), items, [])
  {
  }

  /** A request whose `pathParameters` hold a non-empty `id` that is not in the table gets 404
      with the id echoed; only the lookup is made. */
  lemma UnknownIdNotFound(items: map<string, Item>, event: PathEvent, id: string, deleteFault: Option<string>)
    requires event.pathParameters.Some? && "id" in event.pathParameters.value && event.pathParameters.value["id"] == id
    requires id != [] && id !in items
    ensures Outcome(items, event, None, deleteFault) == Effect(Resp(404, ErrorFor(NotFound, id)), items, [GetCall(id)])
  {
  }

  /** A request whose `pathParameters` hold a non-empty `id` that is in the table removes it,
      every other key keeps its item, and the answer is 200 {deleted: true, note_id}. */
  lemma KnownIdRemoved(items: map<string, Item>, event: PathEvent, id: string)
    requires event.pathParameters.Some? && "id" in event.pathParameters.value && event.pathParameters.value["id"] == id
    requires id != [] && id in items
    ensures var o := Outcome(items, event, None, None);
      && o.response == Resp(200, Deleted(true, id))
      && id !in o.items
      && o.items.Keys == items.Keys - {id}
      && (forall k :: k in o.items ==> o.items[k] == items[k])
      && o.calls == [GetCall(id), DeleteCall(id)]
  {
  }

  /** Every deletion is preceded, immediately, by a lookup of the same key that found it. */
  lemma LookupBeforeDelete(items: map<string, Item>, event: PathEvent, getFault: Option<string>,
                           deleteFault: Option<string>, i: nat)
    requires var calls := Outcome(items, event, getFault, deleteFault).calls; i < |calls| && calls[i].DeleteCall?
    ensures var calls := Outcome(items, event, getFault, deleteFault).calls;
      && i > 0
      && calls[i - 1] == GetCall(calls[i].key)
      && calls[i].key in items
      && getFault.None?
  {
  }

  /** A failing lookup gets 500 with the id echoed and leaves the table as it was; so does a
      failing deletion. */
  lemma FaultsFail(items: map<string, Item>, event: PathEvent, id: string, message: string, deleteFault: Option<string>)
    requires event.pathParameters.Some? && "id" in event.pathParameters.value && event.pathParameters.value["id"] == id
    requires id != []
    ensures Outcome(items, event, Some(message), deleteFault)
         == Effect(Resp(500, ErrorFor(message, id)), items, [GetCall(id)])
    ensures id in items ==>
      Outcome(items, event, None, Some(message))
         == Effect(Resp(500, ErrorFor(message, id)), items, [GetCall(id), DeleteCall(id)])
  {
  }

  /** Deleting the same id twice in a row gives 200 and then 404. */
  lemma DeleteTwice(items: map<string, Item>, event: PathEvent, deleteFault: Option<string>)
    requires Outcome(items, event, None, None).response.statusCode == 200
    ensures var first := Outcome(items, event, None, None);
      Outcome(first.items, event, None, deleteFault).response
        == Resp(404, ErrorFor(NotFound, PathId(event).value))
  {
  }

  /** Deleting keeps a table of well-formed notes well-formed. */
  lemma PreservesWellFormed(items: map<string, Item>, event: PathEvent, getFault: Option<string>, deleteFault: Option<string>)
    requires WellFormed(items)
    ensures WellFormed(Outcome(items, event, getFault, deleteFault).items)
  {
  }
}
