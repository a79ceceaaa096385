/** The handlers of the `/api/issues/:project` route (routes/api.js) as the
    methods of an issue service that owns the document store: GET lists,
    POST creates and PUT updates. Each call is one atomic step on the store;
    a handler whose store call is refused never answers. */
module IssueRoutes {
  import opened Wrappers
  import opened IssueSchema
  import opened DocumentStore

  const RequiredMissing := "required field(s) missing"
  const MissingId := "missing _id"
  const NoUpdateFields := "no update field(s) sent"
  const SuccessfullyUpdated := "successfully updated"

  /** The JSON a handler sends. */
  datatype Body =
    | IssueList(issues: seq<IssueView>)
    | IssueDoc(issue: Issue)
    | UpdateResult(result: string, id: Value)
    | ErrorBody(error: string)

  /** A handler's answer: a status and a JSON body, or nothing when a store
      call was refused and the handler's promise rejected. */
  datatype Response = Reply(status: nat, body: Body) | NoReply

  /** `{ project, ...req.query }`: the path segment, overridden by a
      `project` key of the query. */
  function QueryFilters(project: string, query: map<string, string>): map<string, string> {
    map["project" := project] + query
  }

  /** `{ project, ...req.body }`: the path segment, overridden by a
      `project` key of the body. */
  function CreateData(project: string, body: map<string, Value>): map<string, Value> {
    map["project" := Str(project)] + body
  }

  /** The checks of the POST handler: all three required keys truthy. */
  predicate RequiredSent(body: map<string, Value>) {
    Sent(body, "issue_title") && Sent(body, "issue_text") && Sent(body, "created_by")
  }

  /** The project a created record gets: the body's own, cast to a string,
      or else the path segment. */
  function CreatedProject(project: string, body: map<string, Value>): string {
    if "project" in body then ToSchemaString(body["project"]) else project
  }

  class IssueService {
    const store: IssueStore

    constructor (store: IssueStore)
      ensures this.store == store
    {
      this.store := store;
    }

    /** GET: the records `find` returns for the path segment and the query,
        each without its project, status 200. Changes nothing. */
    method List(project: string, query: map<string, string>) returns (res: Response)
      ensures var found := Find(store.issues, QueryFilters(project, query));
              res == if found.Some? then Reply(200, IssueList(Views(found.value))) else NoReply
    {
      var found := Find(store.issues, QueryFilters(project, query));
      if found.Some? {
        res := Reply(200, IssueList(Views(found.value)));
      } else {
        res := NoReply;
      }
    }

    /** POST: without a truthy title, text and author, the error body with
        the default status 200 and no store access; otherwise the record the
        store creates from `{ project, ...body }`, status 201. */
    method Create(project: string, body: map<string, Value>) returns (res: Response)
      requires store.Valid()
      modifies store
      ensures store.Valid()
      ensures !RequiredSent(body) ==> res == Reply(200, ErrorBody(RequiredMissing)) && unchanged(store)
      ensures RequiredSent(body) ==>
                var built := Build(CreateData(project, body), old(store.nextId), old(store.clock) + 1);
                if built.Some? then
                  && res == Reply(201, IssueDoc(built.value))
                  && store.issues == old(store.issues) + [built.value]
                  && store.nextId == old(store.nextId) + 1
                  && store.clock == old(store.clock) + 1
                else
                  res == NoReply && unchanged(store)
    {
      if !RequiredSent(body) {
        return Reply(200, ErrorBody(RequiredMissing));
      }
      var created := store.Create(CreateData(project, body));
      if created.Some? {
        res := Reply(201, IssueDoc(created.value));
      } else {
        res := NoReply;
      }
    }

    /** PUT: a falsy `_id` is answered first, then a body with no key
        besides `_id`, both with status 400 and no store access; otherwise
        the update goes to the store by identifier and, unless the store
        refuses it, the answer is 201 "successfully updated", whether or not
        a record has that identifier. The path segment plays no part. */
    method Update(project: string, body: map<string, Value>) returns (res: Response)
      requires store.Valid()
      modifies store
      ensures store.Valid()
      ensures !Sent(body, "_id") ==> res == Reply(400, ErrorBody(MissingId)) && unchanged(store)
      ensures Sent(body, "_id") && |body - {"_id"}| == 0 ==>
                res == Reply(400, ErrorBody(NoUpdateFields)) && unchanged(store)
      ensures Sent(body, "_id") && |body - {"_id"}| > 0 ==>
                var id, fields := body["_id"], CastFields(body - {"_id"});
                if CastPath(Id, id).Some? && fields.Some? then
                  && res == Reply(201, UpdateResult(SuccessfullyUpdated, id))
                  && store.issues == PatchById(old(store.issues), id.s, fields.value, old(store.clock) + 1)
                  && store.nextId == old(store.nextId)
                  && store.clock == old(store.clock) + 1
                else
                  res == NoReply && unchanged(store)
    {
      if !Sent(body, "_id") {
        return Reply(400, ErrorBody(MissingId));
      }
      var id := body["_id"];
      var newFields := body - {"_id"};
      if |newFields| < 1 {
        return Reply(400, ErrorBody(NoUpdateFields));
      }
      var ok := store.FindByIdAndUpdate(id, newFields);
      if ok {
        res := Reply(201, UpdateResult(SuccessfullyUpdated, id));
      } else {
        res := NoReply;
      }
    }
  }

  // ---------------------------------------------------------------------
  // Properties of the handlers' specifications
  // ---------------------------------------------------------------------

  /** The GET filter is a conjunction: the project, taken from the query
      when it has one and from the path segment otherwise, and every other
      query entry. */
  lemma QueryFiltersMatch(project: string, query: map<string, string>, r: Issue)
    ensures Matches(r, QueryFilters(project, query)) <==>
              && r.project == (if "project" in query then query["project"] else project)
              && forall key :: key in query && key != "project" ==> FieldMatches(r, key, query[key])
  {
  }

  /** A `project` key in the query makes the path segment irrelevant. */
  lemma QueryProjectOverrides(project: string, other: string, query: map<string, string>)
    requires "project" in query
    ensures QueryFilters(project, query) == QueryFilters(other, query)
  {
  }

  /** GET without a query is never refused and returns exactly the records
      of the path's project, in store order. */
  lemma ListWithoutQuery(issues: seq<Issue>, project: string)
    ensures Find(issues, QueryFilters(project, map[])) == Some(Filter(issues, QueryFilters(project, map[])))
    ensures forall r :: r in Filter(issues, QueryFilters(project, map[])) <==> r in issues && r.project == project
  {
    var filters := QueryFilters(project, map[]);
    assert filters == map["project" := project];
    assert PathOf("project") == Some(Project);
    FilterExactly(issues, filters);
    forall r ensures Matches(r, filters) <==> r.project == project {
      QueryFiltersMatch(project, map[], r);
    }
  }

  /** A record stored last is listed last for its project. */
  lemma CreatedRecordListedLast(issues: seq<Issue>, r: Issue)
    ensures Filter(issues + [r], QueryFilters(r.project, map[]))
            == Filter(issues, QueryFilters(r.project, map[])) + [r]
  {
    FilterAppend(issues, r, QueryFilters(r.project, map[]));
    QueryFiltersMatch(r.project, map[], r);
  }

  /** A created record is storable and carries every schema value the body
      sent (cast to its path), the project of `CreatedProject`, `open` true
      unless sent, no `assigned_to` or `status_text` unless sent, the given
      identifier and equal timestamps. */
  lemma CreateCarriesBody(project: string, body: map<string, Value>, id: nat, now: int, r: Issue)
    requires Build(CreateData(project, body), id, now) == Some(r)
    ensures Storable(r) && r.id == id && r.createdOn == now && r.updatedOn == now
    ensures forall key :: key in body && PathOf(key).Some? && PathOf(key).value != Id ==>
              PathValue(r, PathOf(key).value) == CastPath(PathOf(key).value, body[key])
    ensures r.project == CreatedProject(project, body)
    ensures "open" !in body ==> r.open
    ensures "assigned_to" !in body ==> r.assignedTo.None?
    ensures "status_text" !in body ==> r.statusText.None?
  {
  }

  /** Once the handler's checks pass, the store refuses the record exactly
      when its project would be empty or `open` does not cast. */
  lemma CreateRefusedWhen(project: string, body: map<string, Value>, id: nat, now: int)
    requires RequiredSent(body)
    ensures Build(CreateData(project, body), id, now).None? <==>
              CreatedProject(project, body) == "" || ("open" in body && ToSchemaBoolean(body["open"]).None?)
  {
  }

  /** The body of the functional tests' first create. */
  function ExampleBody(): map<string, Value> {
    map["issue_title" := Str("Issue 1"), "issue_text" := Str("There is an issue"),
        "created_by" := Str("Wunderwaffe"), "assigned_to" := Str("Milwakee"),
        "status_text" := Str("In progress")]
  }

  /** A create with every field, on a fresh store, is answered 201 with a
      record of the path's project, `open` true and the body's values. */
  method ExampleCreate() {
    var store := new IssueStore();
    var service := new IssueService(store);
    var body := ExampleBody();
    assert RequiredSent(body) && "project" !in body && "open" !in body;
    CreateRefusedWhen("123", body, 0, 1);
    var created := service.Create("123", body);
    assert created.Reply? && created.status == 201;
    var issue := created.body.issue;
    CreateCarriesBody("123", body, 0, 1, issue);
    assert PathOf("assigned_to") == Some(AssignedTo);
    assert issue.project == "123" && issue.open && issue.assignedTo == Some("Milwakee");
    assert store.issues == [issue];
  }

  /** An update naming an identifier no record has is still answered
      "successfully updated", and the store keeps no record more or less. */
  method ExampleUpdateMissing() {
    var store := new IssueStore();
    var service := new IssueService(store);
    var update := map["_id" := Str("7"), "open" := Str("false")];
    assert Sent(update, "_id") && update - {"_id"} == map["open" := Str("false")];
    assert WellFormedId("7") && CastFields(map["open" := Str("false")]).Some?;
    var updated := service.Update("123", update);
    assert updated == Reply(201, UpdateResult(SuccessfullyUpdated, Str("7")));
    assert store.issues == [];
  }

  /** The record the example create stores is found by its author. */
  lemma ExampleFoundByAuthor(issue: Issue)
    requires Build(CreateData("123", ExampleBody()), 0, 1) == Some(issue)
    ensures Find([issue], QueryFilters("123", map["created_by" := "Wunderwaffe"])) == Some([issue])
  {
    CreateCarriesBody("123", ExampleBody(), 0, 1, issue);
    assert "project" !in ExampleBody() && "created_by" in ExampleBody();
    assert PathOf("created_by") == Some(CreatedBy) && issue.createdBy == "Wunderwaffe";
    assert FieldMatches(issue, "created_by", "Wunderwaffe");
    var query := map["created_by" := "Wunderwaffe"];
    QueryFiltersMatch("123", query, issue);
    var filters := QueryFilters("123", query);
    assert Matches(issue, filters) && !FilterCastFails(filters);
    assert Filter([issue], filters) == [issue];
  }

  /** The body of the one-filter test's creates, by the given author. */
  function OneFilterBody(author: string): map<string, Value> {
    map["issue_title" := Str("Get With One Filter"),
        "issue_text" := Str("Getting issues with one filter"),
        "created_by" := Str(author)]
  }

  /** Of two records created by "Bob" and one by "Liz", a `created_by=Bob`
      filter finds exactly the two by "Bob", in store order. */
  lemma ExampleOneFilter(bob1: Issue, bob2: Issue, liz: Issue)
    requires Build(CreateData("123", OneFilterBody("Bob")), 0, 1) == Some(bob1)
    requires Build(CreateData("123", OneFilterBody("Bob")), 1, 2) == Some(bob2)
    requires Build(CreateData("123", OneFilterBody("Liz")), 2, 3) == Some(liz)
    ensures Find([bob1, bob2, liz], QueryFilters("123", map["created_by" := "Bob"])) == Some([bob1, bob2])
  {
    CreateCarriesBody("123", OneFilterBody("Bob"), 0, 1, bob1);
    CreateCarriesBody("123", OneFilterBody("Bob"), 1, 2, bob2);
    CreateCarriesBody("123", OneFilterBody("Liz"), 2, 3, liz);
    assert PathOf("created_by") == Some(CreatedBy);
    var query := map["created_by" := "Bob"];
    var filters := QueryFilters("123", query);
    QueryFiltersMatch("123", query, bob1);
    QueryFiltersMatch("123", query, bob2);
    QueryFiltersMatch("123", query, liz);
    assert FieldMatches(bob1, "created_by", "Bob") && FieldMatches(bob2, "created_by", "Bob");
    assert !FieldMatches(liz, "created_by", "Bob");
    assert Matches(bob1, filters) && Matches(bob2, filters) && !Matches(liz, filters);
    assert !FilterCastFails(filters);
    var s := [bob1, bob2, liz];
    assert [liz][1..] == [];
    assert Filter([liz], filters) == [];
    assert [bob2, liz][1..] == [liz];
    assert Filter([bob2, liz], filters) == [bob2];
    assert s[1..] == [bob2, liz];
    assert Filter(s, filters) == [bob1, bob2];
  }

  /** After that create, a GET with a `created_by` filter finds the record. */
  method ExampleListFilter() {
    var store := new IssueStore();
    var service := new IssueService(store);
    var body := ExampleBody();
    assert RequiredSent(body) && "project" !in body && "open" !in body;
    CreateRefusedWhen("123", body, 0, 1);
    var created := service.Create("123", body);
    assert created.Reply? && created.body.IssueDoc?;
    var issue := created.body.issue;
    assert store.issues == [issue];
    ExampleFoundByAuthor(issue);
    assert Views([issue]) == [View(issue)];
    var listed := service.List("123", map["created_by" := "Wunderwaffe"]);
    assert listed == Reply(200, IssueList([View(issue)]));
  }
}
