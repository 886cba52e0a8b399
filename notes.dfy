/**
 * What the three handlers share: the stored note, the response shape, the
 * path-parameter extraction of the get and delete handlers, and the notes
 * table they all talk to.
 */
module Notes {
  import opened Wrappers
  import opened Json
  import opened PyStr

  /** A row of the notes table, keyed by `noteId`. */
  datatype Item = Item(
    noteId: string,
    title: string,
    content: string,
    tags: seq<JsonValue>,
    createdAt: string,
    updatedAt: string,
    version: int)

  /** The dictionaries the handlers pass as a response body. */
  datatype Payload =
    | Error(error: string)                                   // {"error"}
    | ErrorFor(error: string, noteId: string)                // {"error", "note_id"}
    | Created(message: string, noteId: string, createdAt: string, version: int)
    | Found(note: Item)                                      // {"note"}
    | Deleted(deleted: bool, noteId: string)                 // {"deleted", "note_id"}

  /** The HTTP-shaped value a handler returns: status code, headers, body. */
  datatype Response = Response(statusCode: int, headers: map<string, string>, body: Payload)

  const JsonHeaders: map<string, string> := map["Content-Type" := "application/json"]

  // Error messages, as the handlers write them.
  const MissingBody := "Missing body"
  const InvalidJson := "invalid JSON"
  const TitleRequired := "title (string) is required"
  const ContentRequired := "content (string) is required"
  const TagsNotList := "tags must be a list of strings"
  const MissingId := "path parameter {id} is required"
  const NotFound := "note not found"
  const CreatedMessage := "created"

  /** `_resp(status, body)`. */
  function Resp(status: int, body: Payload): Response {
    Response(status, JsonHeaders, body)
  }

  /** A stored item as the dictionary the table returns. */
  function ItemJson(item: Item): map<string, JsonValue> {
    map[
      "note_id" := JString(item.noteId),
      "title" := JString(item.title),
      "content" := JString(item.content),
      "tags" := JArray(item.tags),
      "createdAt" := JString(item.createdAt),
      "updatedAt" := JString(item.updatedAt),
      "version" := JInt(item.version)]
  }

  /** The dictionary handed to `json.dumps` for each kind of body. */
  function ToJson(p: Payload): map<string, JsonValue> {
    match p
    case Error(e) => map["error" := JString(e)]
    case ErrorFor(e, id) => map["error" := JString(e), "note_id" := JString(id)]
    case Created(m, id, at, v) =>
      map["message" := JString(m), "note_id" := JString(id), "createdAt" := JString(at), "version" := JInt(v)]
    case Found(item) => map["note" := JObject(ItemJson(item))]
    case Deleted(d, id) => map["deleted" := JBool(d), "note_id" := JString(id)]
  }

  /** The request of the get and delete handlers: `event["pathParameters"]`, which is either
      missing or null (`None`) or a dictionary of strings. */
  datatype PathEvent = PathEvent(pathParameters: Option<map<string, string>>)

  /** `(event.get("pathParameters") or {}).get("id")`, kept only when it is truthy:
      `None` stands for every request that gets the 400 answer. */
  function PathId(event: PathEvent): Option<string> {
    match event.pathParameters
    case None => None
    case Some(params) => if "id" in params && params["id"] != "" then Some(params["id"]) else None
  }

  /** A request for `/notes/{id}` with the given id. */
  function PathEventFor(id: string): PathEvent {
    PathEvent(Some(map["id" := id]))
  }

  /** `table.get_item(Key=...).get("Item")` on a table holding `items`. */
  function Find(items: map<string, Item>, key: string): Option<Item> {
    if key in items then Some(items[key]) else None
  }

  /** One call the handlers make on the table. */
  datatype StoreCall = PutCall(item: Item) | GetCall(key: string) | DeleteCall(key: string)

  /** What one invocation of a handler does: its response, the table afterwards, and the
      calls it made on the table, in order. */
  datatype Effect = Effect(response: Response, items: map<string, Item>, calls: seq<StoreCall>)

  /** What every note written by the create handler satisfies. */
  predicate WellFormedNote(key: string, item: Item) {
    && item.noteId == key
    && item.title != []
    && Strip(item.title) == item.title
    && !IsBlank(item.content)
    && item.createdAt == item.updatedAt
    && item.version == 1
  }

  predicate WellFormed(items: map<string, Item>) {
    forall key :: key in items ==> WellFormedNote(key, items[key])
  }

  /**
   * The notes table. `items` is its content; `log` records every call made on it.
   * A fault argument stands for an exception raised by the client: `Some(message)`
   * makes the call fail with that message and leave the content as it was.
   */
  class Table {
    var items: map<string, Item>
    ghost var log: seq<StoreCall>

    constructor (initial: map<string, Item>)
      ensures items == initial && log == []
    {
      items := initial;
      log := [];
    }

    /** `table.put_item(Item=item)`: an unconditional write that replaces any row with the same key. */
    method PutItem(item: Item, fault: Option<string>) returns (failure: Option<string>)
      modifies this
      ensures failure == fault
      ensures items == if fault.None? then old(items)[item.noteId := item] else old(items)
      ensures log == old(log) + [PutCall(item)]
    {
      failure := fault;
      if fault.None? {
        items := items[item.noteId := item];
      }
      log := log + [PutCall(item)];
    }

    /** `table.get_item(Key={"note_id": key}).get("Item")`. */
    method GetItem(key: string, fault: Option<string>) returns (r: Result<Option<Item>, string>)
      modifies this`log
      ensures r == if fault.Some? then Failure(fault.value) else Success(Find(items, key))
      ensures log == old(log) + [GetCall(key)]
    {
      if fault.Some? {
        r := Failure(fault.value);
      } else {
        r := Success(Find(items, key));
      }
      log := log + [GetCall(key)];
    }

    /** `table.delete_item(Key={"note_id": key})`: removing a key that is absent changes nothing. */
    method DeleteItem(key: string, fault: Option<string>) returns (failure: Option<string>)
      modifies this
      ensures failure == fault
      ensures items == if fault.None? then old(items) - {key} else old(items)
      ensures log == old(log) + [DeleteCall(key)]
    {
      failure := fault;
      if fault.None? {
        items := items - {key};
      }
      log := log + [DeleteCall(key)];
    }
  }
}
