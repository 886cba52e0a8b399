/**
 * `POST /notes`: validate the body, build the item, write it with one
 * unconditional put, answer 201; every other outcome is a 400 or a 500.
 */
module CreateNote {
  import opened Wrappers
  import opened Json
  import opened PyStr
  import opened Notes

  /** `event["body"]` as the handler sees it once `json.loads` has run on it. */
  datatype Body =
    | Absent                    // the event has no "body" key
    | Blank                     // the body is falsy (None, ""), which the handler replaces by "{}"
    | Malformed                 // json.loads raises JSONDecodeError
    | Parsed(value: JsonValue)  // json.loads returns this value

  /** The fields of an accepted request, as the client sent them. */
  datatype Draft = Draft(title: string, content: string, tags: seq<JsonValue>)

  /** `data.get(key, default)` on a dictionary. */
  function DictGet(data: map<string, JsonValue>, key: string, default: JsonValue): JsonValue {
    if key in data then data[key] else default
  }

  /** The message of the AttributeError raised by `data.get` when `data` is not a dictionary. */
  function NoGetMessage(v: JsonValue): string {
    "'" + PyTypeName(v) + "' object has no attribute 'get'"
  }

  /** The checks on `title`, `content` and `tags`, in this order; the first failing one answers. */
  function CheckFields(data: map<string, JsonValue>): Result<Draft, Response> {
    var title := DictGet(data, "title", JNull);
    var content := DictGet(data, "content", JNull);
    var tags := DictGet(data, "tags", JArray([]));
    if !title.JString? || IsBlank(title.s) then Failure(Resp(400, Error(TitleRequired)))
    else if !content.JString? || IsBlank(content.s) then Failure(Resp(400, Error(ContentRequired)))
    else if !tags.JArray? then Failure(Resp(400, Error(TagsNotList)))
    else Success(Draft(title.s, content.s, tags.elements))
  }

  /** Everything the handler decides before it touches the table. */
  function Validate(body: Body): Result<Draft, Response> {
    match body
    case Absent => Failure(Resp(400, Error(MissingBody)))
    case Malformed => Failure(Resp(400, Error(InvalidJson)))
    case Blank => CheckFields(map[])
    case Parsed(v) =>
      if v.JObject? then CheckFields(v.fields) else Failure(Resp(500, Error(NoGetMessage(v))))
  }

  /** The item written for an accepted draft; `noteId` and `now` are the generated uuid and timestamp. */
  function NewItem(d: Draft, noteId: string, now: string): Item {
    Item(noteId, Strip(d.title), d.content, d.tags, now, now, 1)
  }

  /** What one call of the handler does to a table holding `items`. */
  function Outcome(items: map<string, Item>, body: Body, noteId: string, now: string, putFault: Option<string>)
    : (o: Effect)
    ensures o.response.statusCode in {201, 400, 500}
    ensures o.response.headers == JsonHeaders
    ensures o.response.statusCode == 201 <==> Validate(body).Success? && putFault.None?
    ensures o.response.statusCode != 201 ==> o.items == items
    ensures Validate(body).Failure? ==> o.calls == []
    ensures Validate(body).Success? ==> o.calls == [PutCall(NewItem(Validate(body).value, noteId, now))]
  {
    match Validate(body)
    case Failure(response) => Effect(response, items, [])
    case Success(d) =>
      var item := NewItem(d, noteId, now);
      if putFault.Some? then Effect(Resp(500, Error(putFault.value)), items, [PutCall(item)])
      else Effect(Resp(201, Created(CreatedMessage, noteId, now, 1)), items[noteId := item], [PutCall(item)])
  }

  /** The create handler, run against `table`. */
  method Handler(table: Table, body: Body, noteId: string, now: string, putFault: Option<string>)
    returns (r: Response)
    modifies table
    ensures var o := Outcome(old(table.items), body, noteId, now, putFault);
      && r == o.response
      && table.items == o.items
      && table.log == old(table.log) + o.calls
  {
    var checked := Validate(body);
    if checked.Failure? {
      return checked.error;
    }
    var item := NewItem(checked.value, noteId, now);
    var failure := table.PutItem(item, putFault);
    if failure.Some? {
      return Resp(500, Error(failure.value));
    }
    r := Resp(201, Created(CreatedMessage, noteId, now, 1));
  }

  // ---------------------------------------------------------------------------
  // The request, described independently of the checks.

  /** `data[key]` is a string with at least one non-whitespace character. */
  predicate HasText(data: map<string, JsonValue>, key: string) {
    key in data && data[key].JString? && !AllSpace(data[key].s)
  }

  /** `tags` is missing or a list. */
  predicate TagsIsList(data: map<string, JsonValue>) {
    "tags" !in data || data["tags"].JArray?
  }

  /** The tags the client sent, `[]` when there are none. */
  function TagsOf(data: map<string, JsonValue>): seq<JsonValue> {
    if "tags" in data && data["tags"].JArray? then data["tags"].elements else []
  }

  // ---------------------------------------------------------------------------
  // Properties.

  /** An event without a "body" key gets 400 "Missing body" and the table is not called. */
  lemma MissingBodyRejected(items: map<string, Item>, noteId: string, now: string, putFault: Option<string>)
    ensures Outcome(items, Absent, noteId, now, putFault) == Effect(Resp(400, Error(MissingBody)), items, [])
  {
  }

  /** A null or empty body is read as `{}`, so it fails on the title and writes nothing. */
  lemma BlankBodyIsEmptyObject(items: map<string, Item>, noteId: string, now: string, putFault: Option<string>)
    ensures Outcome(items, Blank, noteId, now, putFault) == Outcome(items, Parsed(JObject(map[])), noteId, now, putFault)
    ensures Outcome(items, Blank, noteId, now, putFault) == Effect(Resp(400, Error(TitleRequired)), items, [])
  {
  }

  /** A body that is not JSON gets 400 "invalid JSON" and writes nothing. */
  lemma MalformedRejected(items: map<string, Item>, noteId: string, now: string, putFault: Option<string>)
    ensures Outcome(items, Malformed, noteId, now, putFault) == Effect(Resp(400, Error(InvalidJson)), items, [])
  {
  }

  /** JSON that is not an object makes `data.get` raise, which the generic handler turns into a 500. */
  lemma NonObjectBodyFails(items: map<string, Item>, v: JsonValue, noteId: string, now: string, putFault: Option<string>)
    requires !v.JObject?
    ensures Outcome(items, Parsed(v), noteId, now, putFault)
         == Effect(Resp(500, Error("'" + PyTypeName(v) + "' object has no attribute 'get'")), items, [])
  {
  }

  /** The title is checked first, then the content, then the tags; the first failure answers
      with its own 400 and nothing is written. */
  lemma FieldChecksInOrder(items: map<string, Item>, data: map<string, JsonValue>, noteId: string, now: string,
                           putFault: Option<string>)
    ensures var o := Outcome(items, Parsed(JObject(data)), noteId, now, putFault);
      && (!HasText(data, "title") ==> o == Effect(Resp(400, Error(TitleRequired)), items, []))
      && (HasText(data, "title") && !HasText(data, "content") ==>
            o == Effect(Resp(400, Error(ContentRequired)), items, []))
      && (HasText(data, "title") && HasText(data, "content") && !TagsIsList(data) ==>
            o == Effect(Resp(400, Error(TagsNotList)), items, []))
  {
    if "title" in data && data["title"].JString? {
      BlankIffAllSpace(data["title"].s);
    }
    if "content" in data && data["content"].JString? {
      BlankIffAllSpace(data["content"].s);
    }
  }

  /** A request with a non-blank string title and content and with tags missing or a list is
      accepted; missing tags become `[]` and the elements of a list are not looked at. */
  lemma ValidRequestAccepted(data: map<string, JsonValue>)
    requires HasText(data, "title") && HasText(data, "content") && TagsIsList(data)
    ensures Validate(Parsed(JObject(data))) == Success(Draft(data["title"].s, data["content"].s, TagsOf(data)))
  {
    BlankIffAllSpace(data["title"].s);
    BlankIffAllSpace(data["content"].s);
  }

  /** Only a JSON object with acceptable fields leads to a write, and every draft comes from one. */
  lemma AcceptedOnlyValid(body: Body)
    requires Validate(body).Success?
    ensures body.Parsed? && body.value.JObject?
    ensures var data := body.value.fields;
      HasText(data, "title") && HasText(data, "content") && TagsIsList(data)
    ensures Validate(body).value == Draft(body.value.fields["title"].s, body.value.fields["content"].s, TagsOf(body.value.fields))
  {
    if body.Parsed? && body.value.JObject? {
      var data := body.value.fields;
      BlankIffAllSpace(data["title"].s);
      BlankIffAllSpace(data["content"].s);
    }
  }

  /** A successful call writes exactly one key, the generated id, and leaves every other key alone. */
  lemma SuccessWritesOnlyNewKey(items: map<string, Item>, body: Body, noteId: string, now: string, putFault: Option<string>)
    requires Outcome(items, body, noteId, now, putFault).response.statusCode == 201
    ensures var o := Outcome(items, body, noteId, now, putFault);
      && noteId in o.items
      && o.items.Keys == items.Keys + {noteId}
      && (forall k :: k in items && k != noteId ==> o.items[k] == items[k])
      && o.calls == [PutCall(o.items[noteId])]
  {
  }

  /** The stored item: the title stripped, the content and the tags as sent, both timestamps the
      creation time, version 1; and the 201 body repeats its id, creation time and version. */
  lemma StoredItemFields(items: map<string, Item>, body: Body, noteId: string, now: string, putFault: Option<string>)
    requires Outcome(items, body, noteId, now, putFault).response.statusCode == 201
    ensures body.Parsed? && body.value.JObject?
    ensures var o, data := Outcome(items, body, noteId, now, putFault), body.value.fields;
      var item := o.items[noteId];
      && item.noteId == noteId
      && item.title == Strip(data["title"].s)
      && item.content == data["content"].s
      && item.tags == TagsOf(data)
      && item.createdAt == now && item.updatedAt == now
      && item.version == 1
      && o.response.body == Created("created", item.noteId, item.createdAt, item.version)
  {
    AcceptedOnlyValid(body);
  }

  /** A failed put answers 500 with the fault's message and leaves the table as it was. */
  lemma PutFaultFails(items: map<string, Item>, body: Body, noteId: string, now: string, message: string)
    requires Validate(body).Success?
    ensures Outcome(items, body, noteId, now, Some(message))
         == Effect(Resp(500, Error(message)), items, [PutCall(NewItem(Validate(body).value, noteId, now))])
  {
  }

  /** A 400 never reaches the table. */
  lemma BadRequestNeverWrites(items: map<string, Item>, body: Body, noteId: string, now: string, putFault: Option<string>)
    requires Outcome(items, body, noteId, now, putFault).response.statusCode == 400
    ensures Outcome(items, body, noteId, now, putFault).items == items
    ensures Outcome(items, body, noteId, now, putFault).calls == []
  {
  }

  /** Every note the handler writes has a non-empty stripped title, a non-blank content, equal
      timestamps and version 1, so a table of such notes stays one. */
  lemma PreservesWellFormed(items: map<string, Item>, body: Body, noteId: string, now: string, putFault: Option<string>)
    requires WellFormed(items)
    ensures WellFormed(Outcome(items, body, noteId, now, putFault).items)
  {
    var o := Outcome(items, body, noteId, now, putFault);
    if o.response.statusCode == 201 {
      var d := Validate(body).value;
      AcceptedOnlyValid(body);
      BlankIffAllSpace(d.title);
      BlankIffAllSpace(d.content);
      StripIdempotent(d.title);
      assert WellFormedNote(noteId, NewItem(d, noteId, now));
    }
  }
}
