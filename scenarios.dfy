/**
 * Facts that span the three handlers: what a later request sees of an earlier
 * one on the same table, and the shape every response shares.
 */
module Scenarios {
  import opened Wrappers
  import opened Json
  import opened PyStr
  import opened Notes
  import CreateNote
  import GetNote
  import DeleteNote

  /** A successful create followed by a get of the returned id answers 200 with the created note:
      title stripped, content and tags as sent, equal timestamps, version 1. */
  lemma CreateThenGet(items: map<string, Item>, body: CreateNote.Body, noteId: string, now: string)
    requires noteId != []
    requires CreateNote.Outcome(items, body, noteId, now, None).response.statusCode == 201
    ensures body.Parsed? && body.value.JObject?
    ensures var created, data := CreateNote.Outcome(items, body, noteId, now, None), body.value.fields;
      var r := GetNote.Handler(created.items, PathEventFor(noteId), None);
      && r.statusCode == 200
      && r.body.Found?
      && r.body.note == Item(noteId, Strip(data["title"].s), data["content"].s, CreateNote.TagsOf(data), now, now, 1)
      && created.response.body.noteId == noteId
  {
    CreateNote.StoredItemFields(items, body, noteId, now, None);
  }

  /** After a successful delete, a get of the same id answers 404. */
  lemma DeleteThenGet(items: map<string, Item>, event: PathEvent, getFault: Option<string>, deleteFault: Option<string>)
    requires DeleteNote.Outcome(items, event, getFault, deleteFault).response.statusCode == 200
    ensures GetNote.Handler(DeleteNote.Outcome(items, event, getFault, deleteFault).items, event, None)
         == Resp(404, ErrorFor(NotFound, PathId(event).value))
  {
  }

  /** A create leaves every other note as it was: a get of a different id gives the same answer
      before and after it. */
  lemma CreateLeavesOtherNotes(items: map<string, Item>, body: CreateNote.Body, noteId: string, now: string,
                               putFault: Option<string>, id: string, fault: Option<string>)
    requires id != noteId
    ensures GetNote.Handler(CreateNote.Outcome(items, body, noteId, now, putFault).items, PathEventFor(id), fault)
         == GetNote.Handler(items, PathEventFor(id), fault)
  {
    var after := CreateNote.Outcome(items, body, noteId, now, putFault).items;
    if id != [] {
      GetNote.AnswerDependsOnlyOnKey(after, items, PathEventFor(id), fault);
    }
  }

  /** Every answer is JSON; every non-2xx answer has an "error" field; the 404s and 500s of the
      get and delete handlers echo the requested id in "note_id". */
  lemma ResponsesCarryErrors(items: map<string, Item>, body: CreateNote.Body, noteId: string, now: string,
                             event: PathEvent, f1: Option<string>, f2: Option<string>)
    ensures var c := CreateNote.Outcome(items, body, noteId, now, f1).response;
      c.headers == JsonHeaders && (c.statusCode >= 400 ==> "error" in ToJson(c.body))
    ensures var g := GetNote.Handler(items, event, f1);
      && (g.statusCode >= 400 ==> "error" in ToJson(g.body))
      && (g.statusCode in {404, 500} ==> ToJson(g.body)["note_id"] == JString(PathId(event).value))
    ensures var d := DeleteNote.Outcome(items, event, f1, f2).response;
      && (d.statusCode >= 400 ==> "error" in ToJson(d.body))
      && (d.statusCode in {404, 500} ==> ToJson(d.body)["note_id"] == JString(PathId(event).value))
  {
  }

  /** The lifecycle of one note on a real table: create it, read it, delete it, read it again. */
  method Lifecycle(table: Table, noteId: string, now: string) returns (created: Response, read: Response,
                                                                       deleted: Response, reread: Response)
    requires noteId != []
    modifies table
    ensures created == Resp(201, Created("created", noteId, now, 1))
    ensures read == Resp(200, Found(Item(noteId, "Milk", "Buy 2%", [JString("errand")], now, now, 1)))
    ensures deleted == Resp(200, Deleted(true, noteId))
    ensures reread == Resp(404, ErrorFor(NotFound, noteId))
    ensures table.items == old(table.items) - {noteId}
  {
    var data := map["title" := JString("Milk"), "content" := JString("Buy 2%"), "tags" := JArray([JString("errand")])];
    assert Strip("Milk") == "Milk";
    assert !IsBlank("Buy 2%");
    created := CreateNote.Handler(table, CreateNote.Parsed(JObject(data)), noteId, now, None);
    read := GetNote.Handler(table.items, PathEventFor(noteId), None);
    deleted := DeleteNote.Handler(table, PathEventFor(noteId), None, None);
    reread := GetNote.Handler(table.items, PathEventFor(noteId), None);
  }
}
