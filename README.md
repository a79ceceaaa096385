# Issue tracker: a verified model of the issue route

This project models the core of a small issue-tracking REST API. Clients
create, list, filter and update "issue" records that belong to a project
named in the path `/api/issues/:project`. It covers two things:

- the handlers of that route (`routes/api.js`);
- the `Issue` schema they persist through (`models/Issue.js`).

The document store behind the schema is made concrete. It is a class holding
the records in insertion order, a counter that assigns identifiers, and a
clock that ticks once per accepted create or update call, whether or not a
record matched.

Files (all modules are the project's own):

- `wrappers.dfy`: module `Wrappers`, the `Option` type.
- `issue_schema.dfy`: module `IssueSchema` (models/Issue.js). It covers request
  values and their JavaScript truthiness, the schema paths, and how a value is
  cast to a path. It also covers the `Issue` record, the record `Issue.create`
  builds (required paths, `open` defaulting to true, both timestamps), the
  partial update `findByIdAndUpdate` applies, and the view a query returns
  without `project`.
- `document_store.dfy`: module `DocumentStore`. It has the `find` filter (a
  conjunction of field equalities), the update by identifier, and the store
  invariant (identifiers unique and increasing, `created_on <= updated_on <=
  clock`). Class `IssueStore` has the methods `Create` and `FindByIdAndUpdate`.
- `issue_routes.dfy`: module `IssueRoutes` (routes/api.js). Class `IssueService`
  owns the store and has the three handlers `List` (GET), `Create` (POST) and
  `Update` (PUT). Lemmas about them follow, plus three example sessions in the
  manner of the functional tests.

Where the route's code differs from what a client of the API might expect,
the model follows the code:

- PUT does not check that the identifier exists. An update naming no record
  changes nothing and is still answered 201 "successfully updated". There is
  no "could not update" answer.
- The "no update field(s) sent" error does not echo `_id`.
- POST answers its validation error with the default status 200. PUT answers
  its errors with 400 and its success with 201.
- Keys of the body override the path segment on POST, including `project`.
  Keys of the query override it on GET.
- PUT may change `project` and may set a required path to the empty string,
  because no validator runs on an update (`UpdateCanEmptyRequiredPath`). So
  "required paths are non-empty" holds for every created record
  (`InsertRecord`) but is not a store invariant.
- When a store call is refused (a cast error, or a failed `required` check on
  create), the async handler's promise rejects and, under Express 4, no
  answer is sent (see "## Left out"). The model returns `NoReply` and leaves
  the store unchanged.

## Model

| member | source | states |
|---|---|---|
| `IssueRoutes.IssueService.List` | routes/api.js:9-16 | GET answers 200 with the views of exactly the records `find` returns for `{project, ...query}`, or no answer when a query value fails its cast; it has no `modifies` clause, so the store is unchanged |
| `IssueRoutes.IssueService.Create` | routes/api.js:18-35 | POST without a truthy `issue_title`, `issue_text` and `created_by` answers 200 `{error:"required field(s) missing"}` and leaves the store unchanged; otherwise the store gets exactly one new record, built from `{project, ...body}`, answered 201 with that record, or nothing is stored and no answer sent when the store refuses it; the store invariant is kept |
| `IssueRoutes.IssueService.Update` | routes/api.js:37-53 | PUT checks a truthy `_id` first (400 "missing _id"), then that some other key was sent (400 "no update field(s) sent"), both without touching the store; otherwise the answer is 201 `{result:"successfully updated", _id}` and the store is the old records patched by that id, whether or not one matched, or no answer and no change when the id or a value fails its cast |
| `IssueRoutes.QueryFilters` | routes/api.js:11 | defines: the GET filter `{project, ...req.query}`, the path segment overridden by a `project` query key |
| `IssueRoutes.CreateData` | routes/api.js:30 | defines: the POST document `{project, ...req.body}`, the path segment overridden by a `project` body key |
| `IssueRoutes.RequiredSent` | routes/api.js:21-25 | defines: the POST check that `issue_title`, `issue_text` and `created_by` are all truthy |
| `DocumentStore.FieldMatches` | routes/api.js:13 | defines: one filter entry holds when the query string, cast to the path its key names, equals the record's value; a key outside the schema never holds |
| `DocumentStore.Matches` | routes/api.js:13 | defines: a record matches a filter when every entry holds |
| `DocumentStore.Filter` | routes/api.js:13 | defines: the matching records in store order |
| `DocumentStore.Find` | routes/api.js:13 | defines: `Issue.find(filters)`, refused when a filter value fails its cast, otherwise the filtered records |
| `IssueSchema.Truthy` | routes/api.js:22-24 | defines: JavaScript truthiness of a request value, as `!` tests it: a string is truthy iff non-empty and a boolean iff true |
| `IssueSchema.Sent` | routes/api.js:40 | defines: `!req.body[key]` is false: the key is present and its value is truthy |
| `IssueSchema.ToSchemaString` | models/Issue.js:7-28 | defines: the cast of a request value to a String path, `String(v)` (a boolean becomes "true" or "false") |
| `IssueSchema.Storable` | models/Issue.js:6-22 | defines: the four `required: true` paths `project`, `issue_title`, `issue_text` and `created_by` are all non-empty |
| `IssueSchema.ToSchemaBoolean` | models/Issue.js:29-32 | defines: the cast to the Boolean path `open` (true/1/yes, false/0/no, anything else a cast error) |
| `IssueSchema.CastPath` | models/Issue.js:6-32 | defines: the cast of a request value to each path: String paths take `String(v)`, `open` the Boolean cast, `_id` a digit string |
| `IssueSchema.CastFields` | models/Issue.js:6-32 | defines: a request body cast against the schema, keys outside it dropped (a `$` operator key too, see "## Left out"), refused when `open` fails its cast |
| `IssueSchema.Insert` | models/Issue.js:4-40 | defines: the record created from a cast document, refused when a required path is absent or empty, with `open` defaulting to true and both timestamps set to now |
| `IssueSchema.Build` | routes/api.js:32 | defines: `Issue.create(data)` as casting followed by insertion |
| `IssueSchema.Apply` | models/Issue.js:35-38 | defines: the update `findByIdAndUpdate` applies to a record: each supplied path overwritten, `updated_on` set to now, no validator run |
| `DocumentStore.PatchById` | routes/api.js:50 | defines: the records after `findByIdAndUpdate(id, d)`, the record showing that id updated and every other record kept |
| `IssueSchema.View` | models/Issue.js:9 | defines: a record as a query returns it, without `project` |
| `IssueRoutes.QueryFiltersMatch` | routes/api.js:10-13 | a record matches the GET filter iff its project equals the query's `project` when present and the path segment otherwise, and it satisfies every other query entry (logical AND) |
| `IssueRoutes.QueryProjectOverrides` | routes/api.js:11 | when the query has a `project` key, the path segment plays no part in the filter |
| `IssueRoutes.ListWithoutQuery` | routes/api.js:10-13 | GET without query parameters is never refused, and it returns exactly the stored records of the path's project and no record of another project |
| `IssueRoutes.CreatedRecordListedLast` | routes/api.js:13 | a record appended by a create comes last in its project's listing, after the earlier ones in their order |
| `IssueRoutes.CreateCarriesBody` | routes/api.js:30-34 | a created record is storable and has the assigned id and equal `created_on`/`updated_on`; it has every schema value the body sent (cast to its path), the body's `project` if sent and the path segment otherwise, `open` true unless sent, and no `assigned_to`/`status_text` unless sent |
| `IssueRoutes.CreateRefusedWhen` | routes/api.js:30-32 | after the handler's checks pass, the store refuses the create iff the resulting project is empty or `open` does not cast to a boolean |
| `IssueRoutes.ExampleFoundByAuthor` | tests/2_functional-tests.js:14-20 | the record created from the tests' example body is found by a `created_by` filter on its project |
| `IssueRoutes.ExampleOneFilter` | tests/2_functional-tests.js:121-143 | of the one-filter test's two records by "Bob" and one by "Liz", `?created_by=Bob` finds exactly the two by "Bob" and leaves the other out |
| `IssueSchema.PathOf` | models/Issue.js:6-32 | a key that names a schema path names the path whose key it is |
| `IssueSchema.PathOfKey` | models/Issue.js:6-32 | every schema path is found again from its key |
| `IssueSchema.TruthyCastsNonEmpty` | routes/api.js:21-25 | a value that passes the handler's truthiness test never casts to an empty string, so it meets `required` |
| `IssueSchema.CastFieldsPaths` | models/Issue.js:4-33 | casting a body fails iff some schema path of the body fails its cast; otherwise the document supplies, for each schema path, exactly the cast of the body's value, and nothing for a path the body leaves out |
| `IssueSchema.InsertSucceeds` | models/Issue.js:6-22 | a record can be created iff `project`, `issue_title`, `issue_text` and `created_by` are all supplied as non-empty strings |
| `IssueSchema.InsertRecord` | models/Issue.js:4-40 | a created record holds every supplied path, `open` true when not supplied, no `assigned_to`/`status_text` when not supplied, both timestamps equal to the current clock, and the required paths non-empty |
| `IssueSchema.ApplyOnlySupplied` | models/Issue.js:35-38 | an update overwrites exactly the supplied paths, keeps every other path, the id and `created_on`, and sets `updated_on` to the current clock |
| `IssueSchema.UpdateCanEmptyRequiredPath` | routes/api.js:50 | since no validator runs on an update, an update can set `issue_title` to "" on a storable record, which is then no longer storable |
| `IssueSchema.ViewHidesOnlyProject` | models/Issue.js:6-10 | a query result hides `project` and nothing else: restoring the project gives the record back, and changing the project does not change the view |
| `IssueSchema.ParseIdText` | routes/api.js:50 | every assigned identifier is a well-formed id string and parses back to the counter value it came from |
| `IssueSchema.IdTextInjective` | routes/api.js:50 | distinct counter values give distinct identifiers |
| `DocumentStore.FilterExactly` | routes/api.js:13 | `find` returns a record iff it is stored and matches every filter entry |
| `DocumentStore.FilterAppend` | routes/api.js:13 | `find` results are in insertion order: filtering after an append is the old result followed by the new record if it matches |
| `DocumentStore.IdsDistinct` | routes/api.js:50 | in a well-formed store no two records show the same identifier |
| `DocumentStore.PatchByIdTouchesAtMostOne` | routes/api.js:50 | an update by identifier changes at most one record of a well-formed store |
| `DocumentStore.PatchByIdMissing` | routes/api.js:50-52 | an update by an identifier that no record has leaves every record unchanged |
| `DocumentStore.PatchByIdKeepsWellFormed` | models/Issue.js:35-38 | an update at the current clock keeps ids and keeps `created_on <= updated_on <= clock` for every record |
| `DocumentStore.IssueStore.Create` | routes/api.js:32 | `Issue.create` appends exactly the record built from the data, with the next id and the next clock value; when casting or validation fails it changes nothing; the invariant is kept |
| `DocumentStore.IssueStore.FindByIdAndUpdate` | routes/api.js:50 | `findByIdAndUpdate` is refused, changing nothing, iff the id or a value fails its cast; otherwise the records become the old ones patched by that id at the next clock value, no record is added or removed, and the invariant is kept |

## Left out

- The DELETE handler (routes/api.js:55-57): its body is empty and it never answers.
- Express routing, `req`/`res` plumbing, JSON content types and HTTP framing. An answer is a status and a body datatype.
- async/await: each handler is one atomic step on the store, with no interleaving of concurrent requests.
- Request values other than strings and booleans (numbers, null, arrays, nested objects, and the nested query objects a query-string parser can produce).
- ObjectIds: identifiers are the store counter in decimal. A well-formed id string is a string of decimal digits; any other `_id` is a cast error.
- The database engine and its failures other than cast and validation errors. The store is in memory and deterministic.
- The real clock: the store keeps an integer clock that ticks by one on every accepted create or update call, whether or not a record matched.
- `_id`, `created_on`, `updated_on` and `__v` sent in a create or update body are dropped like the other keys outside the schema that do not start with `$`. On create, Mongoose would keep a client `_id`. It would also keep a client `created_on`, and a date that does not parse would be a cast error, so the request would get no answer; the model answers 201.
- `DocumentStore.PatchByIdKeepsWellFormed`: `created_on <= updated_on` is an invariant of the model only. In the program a client can break it. First `POST {issue_title, issue_text, created_by, created_on: "2999-01-01"}` stores both timestamps as that date. Then a later `PUT {_id, open: "false"}` sets `updated_on` to now, which is before `created_on`.
- Filters on `created_on` or `updated_on` match no record, because Date casting is not modelled.
- Mongoose's version key `__v` is not modelled. A filter on it matches no record, while in the program `?__v=0` matches every record.
- ObjectId strings that differ only in letter case denote the same ObjectId. The model has no such folding: ids match by their exact string, so a digit string with leading zeros names no record.
- Query keys outside the schema that do not start with `$` match no record. This is Mongoose's behaviour with `strictQuery` off. With it on, they would be dropped instead.
- `DocumentStore.FieldMatches`: a query key starting with `$` is a MongoDB query operator in the program. `$comment` does not restrict the result, and `$where` filters by server-side JavaScript. The model treats such a key as one outside the schema, which matches no record.
- `DocumentStore.IssueStore.FindByIdAndUpdate`: a body key starting with `$` is a MongoDB update operator in the program. With a string value, as in `{"$inc": "5"}`, Mongoose's update cast throws, and the PUT handler never answers. The model treats such a key as one outside the schema: it drops it, patches the record's `updated_on` and answers 201.
- The runtime is assumed to be Express 4, on a Node setting in which an unhandled rejection does not end the process. Only under that assumption does a rejected handler promise leave the request unanswered, as `NoReply` models it. Express 5 would answer such a request 500 through its error handler. Node 15 and later end the process by default.
