/** The document store behind the `Issue` model, made concrete: a sequence of
    records in insertion order, the counter that assigns identifiers and a
    clock that ticks once per accepted create or update call, whether or not
    a record matched. It offers the three operations the handlers call:
    `find` by a conjunction of field equalities, `create` and
    `findByIdAndUpdate`. */
module DocumentStore {
  import opened Wrappers
  import opened IssueSchema

  // ---------------------------------------------------------------------
  // find
  // ---------------------------------------------------------------------

  /** One filter entry holds of a record: the query string, cast to the
      path its key names, equals the record's value there. A key outside
      the schema names a path no record has, so it never holds. */
  predicate FieldMatches(r: Issue, key: string, v: string) {
    var p := PathOf(key);
    p.Some? && CastPath(p.value, Str(v)).Some? && PathValue(r, p.value) == CastPath(p.value, Str(v))
  }

  /** A record matches a filter when every entry holds (logical AND). */
  predicate Matches(r: Issue, filters: map<string, string>) {
    forall key :: key in filters ==> FieldMatches(r, key, filters[key])
  }

  /** Some entry's value does not cast to its path: the query is refused. */
  predicate FilterCastFails(filters: map<string, string>) {
    exists key :: key in filters && PathOf(key).Some? && CastPath(PathOf(key).value, Str(filters[key])).None?
  }

  /** The matching records, in store order. */
  function Filter(issues: seq<Issue>, filters: map<string, string>): seq<Issue>
    decreases |issues|
  {
    if issues == [] then []
    else (if Matches(issues[0], filters) then [issues[0]] else []) + Filter(issues[1..], filters)
  }

  /** `find(filters)`: None when the query is refused by a cast error. */
  function Find(issues: seq<Issue>, filters: map<string, string>): Option<seq<Issue>> {
    if FilterCastFails(filters) then None else Some(Filter(issues, filters))
  }

  /** A record is found exactly when it is stored and matches every entry. */
  lemma {:induction false} FilterExactly(issues: seq<Issue>, filters: map<string, string>)
    ensures forall r :: r in Filter(issues, filters) <==> r in issues && Matches(r, filters)
    decreases |issues|
  {
    if issues != [] {
      FilterExactly(issues[1..], filters);
      assert issues == [issues[0]] + issues[1..];
    }
  }

  /** Results keep insertion order: a record stored last comes last. */
  lemma {:induction false} FilterAppend(issues: seq<Issue>, x: Issue, filters: map<string, string>)
    ensures Filter(issues + [x], filters)
            == Filter(issues, filters) + (if Matches(x, filters) then [x] else [])
    decreases |issues|
  {
    var tail := if Matches(x, filters) then [x] else [];
    if issues == [] {
      assert issues + [x] == [x] && [x][1..] == [];
    } else {
      var s := issues + [x];
      var head := if Matches(issues[0], filters) then [issues[0]] else [];
      assert s[0] == issues[0] && s[1..] == issues[1..] + [x];
      FilterAppend(issues[1..], x, filters);
      assert Filter(s, filters) == head + (Filter(issues[1..], filters) + tail);
      assert Filter(issues, filters) == head + Filter(issues[1..], filters);
    }
  }

  // ---------------------------------------------------------------------
  // findByIdAndUpdate
  // ---------------------------------------------------------------------

  /** The records after `findByIdAndUpdate(id, d)`: the record whose
      identifier is `id` gets the update, every other record stays. */
  function PatchById(issues: seq<Issue>, id: string, d: Fields, now: int): seq<Issue> {
    seq(|issues|, i requires 0 <= i < |issues| =>
      if IdText(issues[i].id) == id then Apply(issues[i], d, now) else issues[i])
  }

  /** The store's invariant: identifiers strictly increase in store order
      and lie below the counter, and every record has
      `created_on <= updated_on <= clock`. */
  predicate WellFormed(issues: seq<Issue>, nextId: nat, clock: int) {
    && (forall i, j :: 0 <= i < j < |issues| ==> issues[i].id < issues[j].id)
    && (forall i :: 0 <= i < |issues| ==> issues[i].id < nextId)
    && (forall i :: 0 <= i < |issues| ==> issues[i].createdOn <= issues[i].updatedOn <= clock)
  }

  /** No two stored records show the same identifier. */
  lemma IdsDistinct(issues: seq<Issue>, nextId: nat, clock: int)
    requires WellFormed(issues, nextId, clock)
    ensures forall i, j :: 0 <= i < |issues| && 0 <= j < |issues| && i != j ==>
              IdText(issues[i].id) != IdText(issues[j].id)
  {
    forall i, j | 0 <= i < |issues| && 0 <= j < |issues| && i != j
      ensures IdText(issues[i].id) != IdText(issues[j].id)
    {
      IdTextInjective(issues[i].id, issues[j].id);
    }
  }

  /** An update by identifier changes at most one record of a well-formed
      store. */
  lemma PatchByIdTouchesAtMostOne(issues: seq<Issue>, nextId: nat, clock: int,
                                  id: string, d: Fields, now: int)
    requires WellFormed(issues, nextId, clock)
    ensures forall i, j ::
              0 <= i < |issues| && 0 <= j < |issues| && i != j && PatchById(issues, id, d, now)[i] != issues[i]
              ==> PatchById(issues, id, d, now)[j] == issues[j]
  {
    IdsDistinct(issues, nextId, clock);
  }

  /** An update by an identifier no record has leaves every record as it is. */
  lemma PatchByIdMissing(issues: seq<Issue>, id: string, d: Fields, now: int)
    requires forall i :: 0 <= i < |issues| ==> IdText(issues[i].id) != id
    ensures PatchById(issues, id, d, now) == issues
  {
  }

  /** An update at a time not before the clock keeps the store well formed. */
  lemma PatchByIdKeepsWellFormed(issues: seq<Issue>, nextId: nat, clock: int,
                                 id: string, d: Fields, now: int)
    requires WellFormed(issues, nextId, clock) && clock <= now
    ensures WellFormed(PatchById(issues, id, d, now), nextId, now)
  {
  }

  // ---------------------------------------------------------------------
  // The store
  // ---------------------------------------------------------------------

  class IssueStore {
    var issues: seq<Issue>
    var nextId: nat
    var clock: int

    ghost predicate Valid()
      reads this
    {
      WellFormed(issues, nextId, clock)
    }

    constructor ()
      ensures Valid()
      ensures issues == [] && nextId == 0 && clock == 0
    {
      issues, nextId, clock := [], 0, 0;
    }

    /** `Issue.create(data)`: casts and validates the document and, when
        that succeeds, appends the new record with the next identifier and
        the next clock value; a cast or validation error stores nothing. */
    method Create(data: map<string, Value>) returns (r: Option<Issue>)
      requires Valid()
      modifies this
      ensures Valid()
      ensures r == Build(data, old(nextId), old(clock) + 1)
      ensures r.Some? ==> issues == old(issues) + [r.value]
                          && nextId == old(nextId) + 1 && clock == old(clock) + 1
      ensures r.None? ==> unchanged(this)
    {
      r := Build(data, nextId, clock + 1);
      if r.Some? {
        issues := issues + [r.value];
        nextId := nextId + 1;
        clock := clock + 1;
      }
    }

    /** `findByIdAndUpdate(id, update)`: refused (false) when the identifier
        or a value does not cast; otherwise the record with that
        identifier, if there is one, gets the update at the next clock
        value. No record is added or removed. */
    method FindByIdAndUpdate(id: Value, update: map<string, Value>) returns (ok: bool)
      requires Valid()
      modifies this
      ensures Valid()
      ensures ok <==> CastPath(Id, id).Some? && CastFields(update).Some?
      ensures ok ==> issues == PatchById(old(issues), id.s, CastFields(update).value, old(clock) + 1)
                     && nextId == old(nextId) && clock == old(clock) + 1
      ensures !ok ==> unchanged(this)
    {
      var d := CastFields(update);
      ok := CastPath(Id, id).Some? && d.Some?;
      if ok {
        PatchByIdKeepsWellFormed(issues, nextId, clock, id.s, d.value, clock + 1);
        issues := PatchById(issues, id.s, d.value, clock + 1);
        clock := clock + 1;
      }
    }
  }
}
