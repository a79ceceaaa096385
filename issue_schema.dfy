/** The issue record of models/Issue.js: the schema's paths, how a request
    value is cast to a path, the record `Issue.create` builds (required paths,
    the `open` default, both timestamps), the partial update
    `findByIdAndUpdate` applies, and the view a query returns, which hides
    `project`. */
module IssueSchema {
  import opened Wrappers

  // ---------------------------------------------------------------------
  // Request values
  // ---------------------------------------------------------------------

  /** A value a client sends in a request body: a JSON or form string, or a
      JSON boolean. */
  datatype Value = Str(s: string) | Bool(b: bool)

  /** JavaScript truthiness: `!v` is false exactly for the empty string and
      for `false`. */
  predicate Truthy(v: Value) {
    match v
    case Str(s) => s != ""
    case Bool(b) => b
  }

  /** `body.key` is truthy: the key is present and not empty or false. */
  predicate Sent(body: map<string, Value>, key: string) {
    key in body && Truthy(body[key])
  }

  // ---------------------------------------------------------------------
  // Schema paths and casting
  // ---------------------------------------------------------------------

  /** The paths of the schema, plus the `_id` every document carries.
      The two timestamp paths have no entry here: requests cannot set them. */
  datatype Path = Id | Project | IssueTitle | IssueText | CreatedBy
                | AssignedTo | StatusText | Open

  /** The JSON key of a path. */
  function KeyOf(p: Path): string {
    match p
    case Id => "_id"
    case Project => "project"
    case IssueTitle => "issue_title"
    case IssueText => "issue_text"
    case CreatedBy => "created_by"
    case AssignedTo => "assigned_to"
    case StatusText => "status_text"
    case Open => "open"
  }

  /** The path a JSON key names; None for a key outside the schema. */
  function PathOf(key: string): (p: Option<Path>)
    ensures p.Some? ==> KeyOf(p.value) == key
  {
    if key == "_id" then Some(Id)
    else if key == "project" then Some(Project)
    else if key == "issue_title" then Some(IssueTitle)
    else if key == "issue_text" then Some(IssueText)
    else if key == "created_by" then Some(CreatedBy)
    else if key == "assigned_to" then Some(AssignedTo)
    else if key == "status_text" then Some(StatusText)
    else if key == "open" then Some(Open)
    else None
  }

  /** Every path is found again from its key. */
  lemma PathOfKey(p: Path)
    ensures PathOf(KeyOf(p)) == Some(p)
  {
  }

  /** Cast to a `String` path: `String(v)`. */
  function ToSchemaString(v: Value): string {
    match v
    case Str(s) => s
    case Bool(b) => if b then "true" else "false"
  }

  /** Cast to a `Boolean` path; None is a cast error. */
  function ToSchemaBoolean(v: Value): Option<bool> {
    match v
    case Bool(b) => Some(b)
    case Str(s) =>
      if s in {"true", "1", "yes"} then Some(true)
      else if s in {"false", "0", "no"} then Some(false)
      else None
  }

  /** A truthy value never casts to the empty string, so the handler's
      truthiness test already satisfies `required` on a `String` path. */
  lemma TruthyCastsNonEmpty(v: Value)
    ensures Truthy(v) ==> ToSchemaString(v) != ""
  {
  }

  /** Cast of a request value to path `p`; None is a cast error. */
  function CastPath(p: Path, v: Value): Option<Value> {
    match p
    case Id => if v.Str? && WellFormedId(v.s) then Some(v) else None
    case Open =>
      var b := ToSchemaBoolean(v);
      if b.Some? then Some(Bool(b.value)) else None
    case _ => Some(Str(ToSchemaString(v)))
  }

  // ---------------------------------------------------------------------
  // Identifiers
  // ---------------------------------------------------------------------

  /** The store assigns identifiers from a counter; `IdText` is the string a
      client sees, the counter in decimal, standing in for an ObjectId. */
  function IdText(n: nat): (s: string)
    ensures |s| > 0
    decreases n
  {
    if n < 10 then [Digit(n)] else IdText(n / 10) + [Digit(n % 10)]
  }

  function Digit(d: nat): char
    requires d < 10
  {
    (48 + d) as char
  }

  /** A string that casts to an identifier: one or more decimal digits.
      Lookups compare identifiers by their exact string, so a well-formed
      string with leading zeros names no record. */
  predicate WellFormedId(s: string) {
    |s| > 0 && forall i :: 0 <= i < |s| ==> '0' <= s[i] <= '9'
  }

  /** The counter value a well-formed identifier's digits spell; it serves
      only to show that `IdText` loses nothing. */
  function ParseId(s: string): nat
    requires WellFormedId(s)
    decreases |s|
  {
    var last := s[|s| - 1] as int - 48;
    if |s| == 1 then last else ParseId(s[..|s| - 1]) * 10 + last
  }

  /** Every assigned identifier is well formed and parses back to its
      counter value. */
  lemma {:induction false} ParseIdText(n: nat)
    ensures WellFormedId(IdText(n)) && ParseId(IdText(n)) == n
    decreases n
  {
    if n >= 10 {
      ParseIdText(n / 10);
      var prefix := IdText(n / 10);
      assert IdText(n) == prefix + [Digit(n % 10)];
      assert IdText(n)[..|IdText(n)| - 1] == prefix;
    }
  }

  /** Distinct counter values give distinct identifiers. */
  lemma {:induction false} IdTextInjective(m: nat, n: nat)
    ensures IdText(m) == IdText(n) ==> m == n
  {
    ParseIdText(m);
    ParseIdText(n);
  }

  // ---------------------------------------------------------------------
  // The stored record
  // ---------------------------------------------------------------------

  /** A stored issue. `assigned_to` and `status_text` have no default, so
      they are absent unless supplied; `created_on` and `updated_on` are the
      schema's timestamps, read from the store's clock. */
  datatype Issue = Issue(
    id: nat,
    project: string,
    issueTitle: string,
    issueText: string,
    createdBy: string,
    assignedTo: Option<string>,
    statusText: Option<string>,
    open: bool,
    createdOn: int,
    updatedOn: int)

  /** The value a record holds at path `p`, as a query compares it; None
      when the record does not have the path. */
  function PathValue(r: Issue, p: Path): Option<Value> {
    match p
    case Id => Some(Str(IdText(r.id)))
    case Project => Some(Str(r.project))
    case IssueTitle => Some(Str(r.issueTitle))
    case IssueText => Some(Str(r.issueText))
    case CreatedBy => Some(Str(r.createdBy))
    case AssignedTo => if r.assignedTo.Some? then Some(Str(r.assignedTo.value)) else None
    case StatusText => if r.statusText.Some? then Some(Str(r.statusText.value)) else None
    case Open => Some(Bool(r.open))
  }

  /** The four `required: true` paths hold non-empty strings. */
  predicate Storable(r: Issue) {
    r.project != "" && r.issueTitle != "" && r.issueText != "" && r.createdBy != ""
  }

  // ---------------------------------------------------------------------
  // Cast documents: what a create or an update carries after casting
  // ---------------------------------------------------------------------

  /** A request body cast against the schema: one entry per schema path the
      body supplies. Keys outside the schema are dropped. */
  datatype Fields = Fields(
    project: Option<string>,
    issueTitle: Option<string>,
    issueText: Option<string>,
    createdBy: Option<string>,
    assignedTo: Option<string>,
    statusText: Option<string>,
    open: Option<bool>)

  /** The cast value a document supplies for path `p`, None when it
      supplies none (`_id` is never part of one). */
  function Supplied(d: Fields, p: Path): Option<Value> {
    match p
    case Id => None
    case Project => if d.project.Some? then Some(Str(d.project.value)) else None
    case IssueTitle => if d.issueTitle.Some? then Some(Str(d.issueTitle.value)) else None
    case IssueText => if d.issueText.Some? then Some(Str(d.issueText.value)) else None
    case CreatedBy => if d.createdBy.Some? then Some(Str(d.createdBy.value)) else None
    case AssignedTo => if d.assignedTo.Some? then Some(Str(d.assignedTo.value)) else None
    case StatusText => if d.statusText.Some? then Some(Str(d.statusText.value)) else None
    case Open => if d.open.Some? then Some(Bool(d.open.value)) else None
  }

  function StringArg(data: map<string, Value>, key: string): Option<string> {
    if key in data then Some(ToSchemaString(data[key])) else None
  }

  /** Casts a request body to a document; None is a cast error, which only
      the `Boolean` path `open` can raise. */
  function CastFields(data: map<string, Value>): Option<Fields> {
    if "open" in data && ToSchemaBoolean(data["open"]).None? then None
    else
      Some(Fields(
        StringArg(data, "project"),
        StringArg(data, "issue_title"),
        StringArg(data, "issue_text"),
        StringArg(data, "created_by"),
        StringArg(data, "assigned_to"),
        StringArg(data, "status_text"),
        if "open" in data then ToSchemaBoolean(data["open"]) else None))
  }

  /** Casting fails exactly when some schema path of the body fails its
      cast, and otherwise the document supplies, for every schema path,
      the cast of the body's value, or nothing when the body has no value. */
  lemma CastFieldsPaths(data: map<string, Value>)
    ensures CastFields(data).None? <==>
              exists p :: p != Id && KeyOf(p) in data && CastPath(p, data[KeyOf(p)]).None?
    ensures CastFields(data).Some? ==>
              forall p :: p != Id ==>
                Supplied(CastFields(data).value, p)
                == (if KeyOf(p) in data then CastPath(p, data[KeyOf(p)]) else None)
  {
    if CastFields(data).None? {
      assert KeyOf(Open) in data && CastPath(Open, data[KeyOf(Open)]).None?;
    }
  }

  // ---------------------------------------------------------------------
  // Creating a record
  // ---------------------------------------------------------------------

  predicate Filled(s: Option<string>) {
    s.Some? && s.value != ""
  }

  /** The record `Issue.create` stores for document `d`: None when a
      `required` path is absent or empty; `open` defaults to true; both
      timestamps are `now`. */
  function Insert(d: Fields, id: nat, now: int): Option<Issue> {
    if Filled(d.project) && Filled(d.issueTitle) && Filled(d.issueText) && Filled(d.createdBy) then
      Some(Issue(id, d.project.value, d.issueTitle.value, d.issueText.value, d.createdBy.value,
                 d.assignedTo, d.statusText,
                 if d.open.Some? then d.open.value else true,
                 now, now))
    else None
  }

  /** Casting and then inserting: the whole of `Issue.create(data)`. */
  function Build(data: map<string, Value>, id: nat, now: int): Option<Issue> {
    var d := CastFields(data);
    if d.Some? then Insert(d.value, id, now) else None
  }

  /** Insertion succeeds exactly when every required path is supplied
      non-empty. */
  lemma InsertSucceeds(d: Fields, id: nat, now: int)
    ensures Insert(d, id, now).Some? <==>
              Filled(d.project) && Filled(d.issueTitle) && Filled(d.issueText) && Filled(d.createdBy)
  {
  }

  /** What an inserted record holds: it is storable, it carries the given
      identifier, every path the document supplies, the default `open`,
      no optional path the document leaves out, and equal timestamps. */
  lemma InsertRecord(d: Fields, id: nat, now: int, r: Issue)
    requires Insert(d, id, now) == Some(r)
    ensures Storable(r) && r.id == id
    ensures forall p :: Supplied(d, p).Some? ==> PathValue(r, p) == Supplied(d, p)
    ensures d.open.None? ==> r.open
    ensures d.assignedTo.None? ==> r.assignedTo.None?
    ensures d.statusText.None? ==> r.statusText.None?
    ensures r.createdOn == now && r.updatedOn == now
  {
  }

  // ---------------------------------------------------------------------
  // Updating a record
  // ---------------------------------------------------------------------

  /** The `$set` that `findByIdAndUpdate(id, fields)` applies to a record:
      each supplied path is overwritten and `updated_on` is refreshed. No
      validator runs on an update. */
  function Apply(r: Issue, d: Fields, now: int): Issue {
    r.(project := if d.project.Some? then d.project.value else r.project,
       issueTitle := if d.issueTitle.Some? then d.issueTitle.value else r.issueTitle,
       issueText := if d.issueText.Some? then d.issueText.value else r.issueText,
       createdBy := if d.createdBy.Some? then d.createdBy.value else r.createdBy,
       assignedTo := if d.assignedTo.Some? then d.assignedTo else r.assignedTo,
       statusText := if d.statusText.Some? then d.statusText else r.statusText,
       open := if d.open.Some? then d.open.value else r.open,
       updatedOn := now)
  }

  /** An update changes exactly the supplied paths: each of them takes the
      supplied value, every other path keeps its value, the identifier and
      `created_on` are kept and `updated_on` becomes `now`. */
  lemma ApplyOnlySupplied(r: Issue, d: Fields, now: int)
    ensures forall p :: PathValue(Apply(r, d, now), p)
                        == (if Supplied(d, p).Some? then Supplied(d, p) else PathValue(r, p))
    ensures Apply(r, d, now).id == r.id
    ensures Apply(r, d, now).createdOn == r.createdOn
    ensures Apply(r, d, now).updatedOn == now
  {
  }

  /** Since no validator runs on an update, an update can empty a required
      path: a stored record does not stay storable. */
  lemma UpdateCanEmptyRequiredPath(r: Issue, now: int)
    requires Storable(r)
    ensures CastFields(map["issue_title" := Str("")]).Some?
    ensures !Storable(Apply(r, CastFields(map["issue_title" := Str("")]).value, now))
  {
  }

  // ---------------------------------------------------------------------
  // The view a query returns
  // ---------------------------------------------------------------------

  /** A record as a query returns it: `project` is `select: false`, so it
      is left out. */
  datatype IssueView = IssueView(
    id: nat,
    issueTitle: string,
    issueText: string,
    createdBy: string,
    assignedTo: Option<string>,
    statusText: Option<string>,
    open: bool,
    createdOn: int,
    updatedOn: int)

  function View(r: Issue): IssueView {
    IssueView(r.id, r.issueTitle, r.issueText, r.createdBy, r.assignedTo, r.statusText,
              r.open, r.createdOn, r.updatedOn)
  }

  /** The record a view came from, given the project it hid. */
  function Restore(v: IssueView, project: string): Issue {
    Issue(v.id, project, v.issueTitle, v.issueText, v.createdBy, v.assignedTo, v.statusText,
          v.open, v.createdOn, v.updatedOn)
  }

  /** A view hides `project` and nothing else: restoring the project gives
      back the record, and two records that differ only in their project
      have the same view. */
  lemma ViewHidesOnlyProject(r: Issue, project: string)
    ensures Restore(View(r), r.project) == r
    ensures View(r.(project := project)) == View(r)
  {
  }

  function Views(rs: seq<Issue>): seq<IssueView> {
    seq(|rs|, i requires 0 <= i < |rs| => View(rs[i]))
  }
}
