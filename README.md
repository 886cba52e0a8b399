# Notes service over a key-value table

A model of the three request handlers of a small serverless notes API:
`POST /notes` creates a note, `GET /notes/{id}` reads one and
`DELETE /notes/{id}` removes one. All three work on one DynamoDB table keyed by `note_id`.

- `Notes.Table` stands in for the table. It is a class whose field `items: map<string, Item>` is the
  table's content. A ghost field `log` records, in order, every `put_item`, `get_item` and `delete_item`
  call the create and delete handlers make (the get handler reads `items` directly and logs nothing). Each table method takes a fault argument, `Option<string>`: `Some(message)` stands for the
  exception the client raises, and the table is then left unchanged.
- The create handler (`CreateNote.Handler`) and the delete handler (`DeleteNote.Handler`) are methods that
  modify the table. Each is proved against a pure `Outcome` function. `Outcome` gives the response, the new
  content and the list of table calls, and the lemmas on it state what the handlers promise.
- The get handler only reads, so `GetNote.Handler` is a function of the table's content.
- The create handler's validation chain (`CreateNote.Validate`, `CheckFields`) and the item it builds
  (`NewItem`) are pure functions.
- `str.strip()` and `str.isspace()` are modelled exactly (`PyStr`), because the title check and the
  stored title depend on them.
- Inputs the handlers get from outside are parameters:
  - the request body after `json.loads` (`CreateNote.Body`: no key / falsy / not JSON / a
    decoded value);
  - `pathParameters` (`Notes.PathEvent`);
  - the generated uuid and timestamp;
  - one fault argument per table call.
- Responses are `Notes.Response(statusCode, headers, body)`. The body is the dictionary the handler builds,
  as a `Notes.Payload`; `Notes.ToJson` gives the JSON object it stands for.

In three places the code does less than the service's stated design. The model follows the code:
- `content` is only checked to be non-blank. It is stored as sent, not trimmed.
- `tags` must be a list, but its elements are never checked.
- A body that decodes to JSON other than an object makes `data.get` raise `AttributeError`. The result is
  a 500, not a 400.

## Model

| member | source | states |
|---|---|---|
| `Json.PyTypeName` | src/create_note/handler.py:28-30 | the Python type name of a decoded value; it is "dict" exactly for objects, "list" exactly for arrays, "str" exactly for strings |
| `PyStr.IsSpace` | src/create_note/handler.py:32 | definition, no contract: the characters `str.isspace()` accepts, the ones `strip()` removes; described by `PyStr.BlankIffAllSpace` |
| `PyStr.LStrip` | src/create_note/handler.py:45 | definition, no contract: `str.lstrip()`; described by `PyStr.LStripSuffix` |
| `PyStr.RStrip` | src/create_note/handler.py:45 | definition, no contract: `str.rstrip()`; described by `PyStr.RStripPrefix` |
| `PyStr.Strip` | src/create_note/handler.py:45 | definition, no contract: `str.strip()`; described by `PyStr.StripIsSlice`, `PyStr.StripTrimmed` and `PyStr.StripIdempotent` |
| `PyStr.IsBlank` | src/create_note/handler.py:32-35 | definition, no contract: `not s.strip()`; described by `PyStr.BlankIffAllSpace` |
| `PyStr.LStripSuffix` | src/create_note/handler.py:32 | lstrip leaves a suffix of the string; only whitespace is removed before it, and it starts with a non-space |
| `PyStr.RStripPrefix` | src/create_note/handler.py:32 | rstrip leaves a prefix of the string; only whitespace is removed after it, and it ends with a non-space |
| `PyStr.StripIsSlice` | src/create_note/handler.py:45 | `strip()` returns a contiguous slice of the input with only whitespace outside it |
| `PyStr.StripTrimmed` | src/create_note/handler.py:45 | a stripped string neither starts nor ends with whitespace |
| `PyStr.BlankIffAllSpace` | src/create_note/handler.py:32-35 | `not s.strip()` holds exactly when every character of `s` is whitespace |
| `PyStr.StripIdempotent` | src/create_note/handler.py:45 | stripping twice is stripping once |
| `Notes.Resp` | src/create_note/handler.py:13-18 | definition, no contract: `_resp(status, body)`, the same in all three handlers; described by `Scenarios.ResponsesCarryErrors` |
| `Notes.ItemJson` | src/get_note/handler.py:35 | definition, no contract: a stored item as the dictionary the table returns |
| `Notes.ToJson` | src/create_note/handler.py:24-66 | definition, no contract: the dictionary each handler passes to `json.dumps`; described by `Scenarios.ResponsesCarryErrors` |
| `Notes.PathId` | src/delete_note/handler.py:38-40 | definition, no contract: `(pathParameters or {}).get("id")`, kept when truthy. The handler lemmas state what it means for the event itself (`GetNote.MissingIdRejected`, `DeleteNote.MissingIdRejected` and the lemmas after them) |
| `Notes.Find` | src/get_note/handler.py:30-31 | definition, no contract: `get_item(...).get("Item")` on the table's content; described by `GetNote.UnknownIdNotFound` and `GetNote.KnownIdFound` |
| `Notes.Table.constructor` | src/create_note/handler.py:10 | the table handle, with the given content and an empty call log |
| `Notes.Table.PutItem` | src/create_note/handler.py:53 | an unconditional write under the item's own key that replaces any existing row, logged as one put; on a fault nothing changes |
| `Notes.Table.GetItem` | src/delete_note/handler.py:43 | a lookup that changes nothing in the table, logged as one get; on a fault it fails with the fault's message |
| `Notes.Table.DeleteItem` | src/delete_note/handler.py:48 | removes the key (a no-op if absent), logged as one delete; on a fault nothing changes |
| `CreateNote.DictGet` | src/create_note/handler.py:28-30 | definition, no contract: `data.get(key, default)`; described by `CreateNote.FieldChecksInOrder` and `CreateNote.ValidRequestAccepted` |
| `CreateNote.NoGetMessage` | src/create_note/handler.py:64-66 | definition, no contract: the text of the AttributeError raised by `data.get` on a non-dictionary; described by `CreateNote.NonObjectBodyFails` |
| `CreateNote.CheckFields` | src/create_note/handler.py:28-37 | definition, no contract: the title, content and tags checks; described by `CreateNote.FieldChecksInOrder`, `CreateNote.ValidRequestAccepted` and `CreateNote.AcceptedOnlyValid` |
| `CreateNote.Validate` | src/create_note/handler.py:23-37 | definition, no contract: everything decided before the put, error answers included; described by the same lemmas and by `CreateNote.MissingBodyRejected`, `CreateNote.MalformedRejected` and `CreateNote.NonObjectBodyFails` |
| `CreateNote.NewItem` | src/create_note/handler.py:43-51 | definition, no contract: the item built for an accepted request; described by `CreateNote.StoredItemFields` and `CreateNote.PreservesWellFormed` |
| `CreateNote.Outcome` | src/create_note/handler.py:21-66 | the status is 201, 400 or 500, with JSON headers. It is 201 exactly when validation succeeds and the put does not fail. Anything but 201 leaves the table unchanged. A rejected request makes no call; an accepted one makes exactly one put, of the built item |
| `CreateNote.Handler` | src/create_note/handler.py:21-66 | the handler on a real table: response, new content and logged calls are those of `Outcome` |
| `CreateNote.MissingBodyRejected` | src/create_note/handler.py:23-24 | an event with no "body" gets 400 "Missing body"; no call, table unchanged |
| `CreateNote.BlankBodyIsEmptyObject` | src/create_note/handler.py:26 | a null or empty body behaves as `{}`, so it gets 400 on the title; nothing is written |
| `CreateNote.MalformedRejected` | src/create_note/handler.py:62-63 | text that is not JSON gets 400 "invalid JSON"; nothing is written |
| `CreateNote.NonObjectBodyFails` | src/create_note/handler.py:64-66 | JSON that is not an object gets 500 with the AttributeError message of `data.get`; nothing is written |
| `CreateNote.FieldChecksInOrder` | src/create_note/handler.py:32-37 | the title is checked first, then the content, then the tags. A title or content that is missing, not a string, or all whitespace, or tags that are not a list, get that check's own 400 and no write |
| `CreateNote.ValidRequestAccepted` | src/create_note/handler.py:30-37 | non-blank string title and content, with tags missing or a list, are accepted. Missing tags become `[]`; list elements are not checked |
| `CreateNote.AcceptedOnlyValid` | src/create_note/handler.py:26-37 | an accepted request is always a JSON object meeting those three conditions, and the draft is its fields as sent |
| `CreateNote.SuccessWritesOnlyNewKey` | src/create_note/handler.py:40-53 | on 201 the table gains exactly the generated key, every other key keeps its item, and exactly one put is made |
| `CreateNote.StoredItemFields` | src/create_note/handler.py:43-60 | the stored item has the generated id, the title stripped, content and tags as sent, createdAt = updatedAt = now, and version 1. The 201 body is {message: "created", note_id, createdAt, version} of that item |
| `CreateNote.PutFaultFails` | src/create_note/handler.py:53-66 | a failing put gets 500 {error: message}; the table is unchanged after the one attempted put |
| `CreateNote.BadRequestNeverWrites` | src/create_note/handler.py:23-37 | a 400 makes no table call and changes nothing |
| `CreateNote.PreservesWellFormed` | src/create_note/handler.py:43-53 | every note written has its key as note_id, a non-empty stripped title, non-blank content, equal timestamps and version 1, so a table of such notes stays one |
| `GetNote.Handler` | src/get_note/handler.py:24-37 | the status is 200, 400, 404 or 500, with JSON headers; it is 200 exactly when the id is valid, the lookup does not fail and the id is in the table |
| `GetNote.MissingIdRejected` | src/get_note/handler.py:25-27 | a missing or null pathParameters, or a missing or empty id, gets 400 whatever the table and the fault: the table is not consulted |
| `GetNote.UnknownIdNotFound` | src/get_note/handler.py:30-33 | any request whose pathParameters hold a non-empty "id" that is not in the table gets 404 {error: "note not found", note_id} |
| `GetNote.KnownIdFound` | src/get_note/handler.py:30-35 | any request whose pathParameters hold a non-empty "id" that is in the table gets 200 {note: item} with exactly the stored item |
| `GetNote.LookupFaultFails` | src/get_note/handler.py:36-37 | for any request with a non-empty "id", a failing lookup gets 500 {error: message, note_id} |
| `GetNote.AnswerDependsOnlyOnKey` | src/get_note/handler.py:29-37 | two tables that agree on the requested key give the same answer |
| `DeleteNote.Outcome` | src/delete_note/handler.py:36-55 | the status is 200, 400, 404 or 500, with JSON headers. It is 200 exactly when the id is valid and present and neither call fails. The table loses that key on 200 and is otherwise unchanged |
| `DeleteNote.Handler` | src/delete_note/handler.py:36-55 | the handler on a real table: response, new content and logged calls are those of `Outcome`; the id is resolved before the first call |
| `DeleteNote.MissingIdRejected` | src/delete_note/handler.py:38-40 | a missing or null pathParameters, or a missing or empty id, gets 400 with no table call |
| `DeleteNote.UnknownIdNotFound` | src/delete_note/handler.py:43-45 | any request whose pathParameters hold a non-empty "id" that is not in the table gets 404 {error: "note not found", note_id}; only the lookup is made and nothing changes |
| `DeleteNote.KnownIdRemoved` | src/delete_note/handler.py:48-51 | for any request whose pathParameters hold a non-empty "id" that is in the table, the id is removed and every other key keeps its item; the answer is 200 {deleted: true, note_id} after one lookup and one delete |
| `DeleteNote.LookupBeforeDelete` | src/delete_note/handler.py:43-48 | every delete call comes straight after a successful lookup of the same key, and only for a key that was in the table |
| `DeleteNote.FaultsFail` | src/delete_note/handler.py:53-55 | for any request with a non-empty "id", a failing lookup or a failing delete gets 500 {error: message, note_id}; the table is unchanged |
| `DeleteNote.DeleteTwice` | src/delete_note/handler.py:44-48 | deleting the same id twice in a row gives 200 and then 404 |
| `DeleteNote.PreservesWellFormed` | src/delete_note/handler.py:48 | deleting keeps a table of well-formed notes well-formed |
| `Scenarios.CreateThenGet` | src/create_note/handler.py:53-60 | a successful create, then a get of the returned id, gives 200 with the created note (title stripped, content and tags as sent, equal timestamps, version 1) |
| `Scenarios.DeleteThenGet` | src/delete_note/handler.py:48 | after a successful delete, a get of the same id gives 404 |
| `Scenarios.CreateLeavesOtherNotes` | src/create_note/handler.py:53 | a get of any other id gives the same answer before and after a create |
| `Scenarios.ResponsesCarryErrors` | src/create_note/handler.py:13-18 | every response has the JSON content type. Every non-2xx body has an "error" field. The 404 and 500 bodies of get and delete echo the requested id as "note_id" |
| `Scenarios.Lifecycle` | src/create_note/handler.py:21-60 | on a real table: create {"title": "Milk", "content": "Buy 2%", "tags": ["errand"]} gives 201, get gives 200 with the note, delete gives 200, get gives 404 |

## Left out

- The AWS CDK stack and `app.py` are not part of this model. They declare the table, routes, permissions
  and stage settings, and compute nothing.
- The boto3 client set-up and the `NOTES_TABLE` environment variable are replaced by the `Notes.Table`
  object.
- `json.loads` is not modelled. The body is given already decoded (text and bytes alike). A truthy body
  that is neither `str` nor `bytes` is not represented; `json.loads` would raise a TypeError, giving a 500.
- `json.dumps` is not modelled. Responses are structured values, with no text and no key order.
- `DecimalEncoder` is not modelled because it is floating-point conversion. It turns the table's decimals
  into floats, so a read returns `version` as `1.0` and numeric tags as floats. The model shows the stored
  integer.
- `uuid.uuid4()` and `datetime.now(timezone.utc).isoformat()` are parameters. The model does not assume
  the generated id is new: a put under an existing id replaces that row, as the code does. Lemmas that read
  the note back require the id to be non-empty, as a uuid string is.
- Exception messages (`str(e)`) of the table client are the text inside the fault argument. A failed put or
  delete is taken to leave the table unchanged; the state after a call that timed out is not modelled.
- boto3 refuses float values in an item, so tags holding a float make the real put fail. In the model that
  is a put fault.
- `Notes.Table` models strongly consistent reads: every `get_item` sees the latest write. The handlers use
  DynamoDB's default, eventually consistent read, so right after a create a get can still answer 404, and a
  second delete can see the stale item and answer 200 again. `Scenarios.CreateThenGet`,
  `Scenarios.DeleteThenGet`, `DeleteNote.DeleteTwice` and the 404/200 split of `DeleteNote.Outcome` hold
  only under strongly consistent reads.
- Concurrency is not modelled: calls are strictly sequential. This includes the race where two deletes
  both pass the lookup.
- Python's unbound-name error in the delete handler's 500 branch cannot happen in the model, because the
  id is resolved before any table call. Events that are not dictionaries are not represented.
- `_resp`'s `body or {}` default in the delete handler is not modelled, because no call passes an empty
  body.
