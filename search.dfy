/**
 * The data-point search endpoints.
 *
 * `/filters` lists the distinct values of five fields, each sorted, with
 * empty city names removed. `/search` turns the optional request fields into
 * a MongoDB match query and a group `_id`, one field at a time, and runs the
 * pipeline match -> group (sum of `value` per `_id`) -> sort by `_id.date`.
 * The store's aggregation is modelled by its meaning over a sequence of data
 * points.
 */
module Search {
  import opened Values
  import opened Records

  // ---------------------------------------------------------------- /filters

  datatype FilterOptions = FilterOptions(
    parties: seq<string>,
    nuances: seq<string>,
    candidates: seq<string>,
    cities: seq<string>,
    electionTypes: seq<string>)

  predicate StringsSorted(xs: seq<string>)
  {
    forall i, j :: 0 <= i < j < |xs| ==> LexLeq(xs[i], xs[j])
  }

  function AsStr(s: string): FieldValue { Str(s) }

  /** JavaScript's default `Array.prototype.sort` on strings. */
  function SortStrings(xs: seq<string>): (r: seq<string>)
    ensures StringsSorted(r)
    ensures multiset(r) == multiset(xs)
  {
    SortBy(xs, AsStr)
  }

  /** `filter((c) => c)`: keeps the truthy strings, that is the non-empty ones, in order. */
  function DropEmpty(xs: seq<string>): (r: seq<string>)
    ensures "" !in r
    ensures multiset(r) == multiset(xs)["" := 0]
  {
    if xs == [] then []
    else
      assert xs == [xs[0]] + xs[1..];
      (if xs[0] == "" then [] else [xs[0]]) + DropEmpty(xs[1..])
  }

  /** The `/filters` response built from the five distinct-value lists. */
  function ListFilters(parties: seq<string>, nuances: seq<string>, candidates: seq<string>,
                       cities: seq<string>, electionTypes: seq<string>): (r: FilterOptions)
    ensures StringsSorted(r.parties) && multiset(r.parties) == multiset(parties)
    ensures StringsSorted(r.nuances) && multiset(r.nuances) == multiset(nuances)
    ensures StringsSorted(r.candidates) && multiset(r.candidates) == multiset(candidates)
    ensures StringsSorted(r.cities) && "" !in r.cities && multiset(r.cities) == multiset(cities)["" := 0]
    ensures StringsSorted(r.electionTypes) && multiset(r.electionTypes) == multiset(electionTypes)
  {
    var cs := SortStrings(DropEmpty(cities));
    assert forall c :: c in cs ==> c in multiset(cs);
    FilterOptions(SortStrings(parties), SortStrings(nuances), SortStrings(candidates), cs,
      SortStrings(electionTypes))
  }

  // ---------------------------------------------------------------- /search request

  /** The request body; `None` is a field left out. Dates are day numbers. */
  datatype SearchRequest = SearchRequest(
    electionTypes: Option<seq<string>>,
    startDate: Option<int>,
    endDate: Option<int>,
    parties: Option<seq<string>>,
    nuances: Option<seq<string>>,
    candidates: Option<seq<string>>,
    level: Option<string>,
    city: Option<string>,
    groupBy: Option<string>)

  predicate NonEmptyList(l: Option<seq<string>>) { l.Some? && |l.value| > 0 }

  /** What the request asks of one data point: an omitted or empty list
      imposes nothing, a non-empty list asks for membership, the date bounds
      are inclusive and independent, and `level` and `city` are equalities
      only when a non-empty value is given. */
  predicate Selects(req: SearchRequest, d: DataPoint)
  {
    && (NonEmptyList(req.electionTypes) ==> d.electionType in req.electionTypes.value)
    && (req.startDate.Some? ==> req.startDate.value <= d.date)
    && (req.endDate.Some? ==> d.date <= req.endDate.value)
    && (NonEmptyList(req.parties) ==> d.party in req.parties.value)
    && (NonEmptyList(req.nuances) ==> d.nuance in req.nuances.value)
    && (NonEmptyList(req.candidates) ==> d.candidateName in req.candidates.value)
    && (Truthy(req.level) ==> d.level == req.level.value)
    && (Truthy(req.city) ==> d.city == req.city.value)
  }

  /** `group_by || "party"`. */
  function GroupByField(req: SearchRequest): (g: string)
    ensures !Truthy(req.groupBy) ==> g == "party"
    ensures Truthy(req.groupBy) ==> g == req.groupBy.value
    ensures g != ""
  {
    if Truthy(req.groupBy) then req.groupBy.value else "party"
  }

  // ---------------------------------------------------------------- $match

  /** `{ $gte, $lte }`; a bound left out is absent from the object. */
  datatype DateBounds = DateBounds(gte: Option<int>, lte: Option<int>)

  /** The match query object; `None` is a key never assigned. */
  datatype MatchQuery = MatchQuery(
    electionType: Option<seq<string>>,
    date: Option<DateBounds>,
    party: Option<seq<string>>,
    nuance: Option<seq<string>>,
    candidateName: Option<seq<string>>,
    level: Option<string>,
    city: Option<string>)

  /** MongoDB's `$match` on one document: every condition present holds.
      `$in` asks for membership; a date condition with no operator in it
      would be an equality with an empty document, which no date meets. */
  predicate Matches(q: MatchQuery, d: DataPoint)
  {
    && (q.electionType.Some? ==> d.electionType in q.electionType.value)
    && (q.date.Some? ==>
          && (q.date.value.gte.Some? || q.date.value.lte.Some?)
          && (q.date.value.gte.Some? ==> d.date >= q.date.value.gte.value)
          && (q.date.value.lte.Some? ==> d.date <= q.date.value.lte.value))
    && (q.party.Some? ==> d.party in q.party.value)
    && (q.nuance.Some? ==> d.nuance in q.nuance.value)
    && (q.candidateName.Some? ==> d.candidateName in q.candidateName.value)
    && (q.level.Some? ==> d.level == q.level.value)
    && (q.city.Some? ==> d.city == q.city.value)
  }

  /** Builds the match query key by key, as the handler does. */
  method BuildMatchQuery(req: SearchRequest) returns (q: MatchQuery)
    ensures forall d :: Matches(q, d) <==> Selects(req, d)
  {
    q := MatchQuery(None, None, None, None, None, None, None);
    if NonEmptyList(req.electionTypes) {
      q := q.(electionType := req.electionTypes);
    }
    if req.startDate.Some? || req.endDate.Some? {
      var bounds := DateBounds(None, None);
      if req.startDate.Some? {
        bounds := bounds.(gte := req.startDate);
      }
      if req.endDate.Some? {
        bounds := bounds.(lte := req.endDate);
      }
      q := q.(date := Some(bounds));
    }
    if NonEmptyList(req.parties) {
      q := q.(party := req.parties);
    }
    if NonEmptyList(req.nuances) {
      q := q.(nuance := req.nuances);
    }
    if NonEmptyList(req.candidates) {
      q := q.(candidateName := req.candidates);
    }
    if Truthy(req.level) {
      q := q.(level := req.level);
    }
    if Truthy(req.city) {
      q := q.(city := req.city);
    }
  }

  // ---------------------------------------------------------------- $group _id

  type GroupKey = map<string, FieldValue>

  /** The value of a data point at a top-level path; a path the schema does
      not declare is missing. */
  function FieldOf(d: DataPoint, name: string): FieldValue
  {
    if name == "type" then Str(d.kind)
    else if name == "election_id" then Str(d.electionId)
    else if name == "election_type" then Str(d.electionType)
    else if name == "date" then Day(d.date)
    else if name == "candidate_name" then Str(d.candidateName)
    else if name == "party" then Str(d.party)
    else if name == "nuance" then Str(d.nuance)
    else if name == "level" then Str(d.level)
    else if name == "city" then Str(d.city)
    else if name == "value" then Num(d.value)
    else if name == "poll_source" then (if d.pollSource.Some? then Str(d.pollSource.value) else Null)
    else Missing
  }

  /** An aggregation expression: `"$path"` reads a field, any other string is a literal. */
  function Eval(d: DataPoint, expr: string): FieldValue
  {
    if |expr| > 0 && expr[0] == '$' then FieldOf(d, expr[1..]) else Str(expr)
  }

  /** The `_id` document one data point evaluates to. */
  function EvalGroupId(spec: map<string, string>, d: DataPoint): GroupKey
  {
    map k | k in spec :: Eval(d, spec[k])
  }

  /** The fields a group key is made of. */
  function KeyFields(g: string): set<string>
  {
    {"date", "type", "election_id", "nuance", g}
  }

  /** The data point's own values at `fields`. */
  function Project(d: DataPoint, fields: set<string>): GroupKey
  {
    map k | k in fields :: FieldOf(d, k)
  }

  /** Builds the group `_id` field by field, as the handler does. */
  method BuildGroupId(g: string) returns (spec: map<string, string>)
    ensures spec.Keys == {"date", "type", "election_id", "nuance"} + (if g != "nuance" then {g} else {})
    ensures spec.Keys == KeyFields(g)
    ensures forall d :: EvalGroupId(spec, d) == Project(d, KeyFields(g))
    ensures GroupIdAccepted(spec) <==> FieldNameOk(g)
  {
    spec := map["date" := "$date", "type" := "$type", "election_id" := "$election_id"];
    if g != "nuance" {
      spec := spec[g := "$" + g];
    }
    spec := spec["nuance" := "$nuance"];
    assert spec.Keys == KeyFields(g);
    assert forall k :: k in spec ==> spec[k] == "$" + k;
    forall d ensures EvalGroupId(spec, d) == Project(d, KeyFields(g)) {
      PathSpecIsProjection(spec, d);
    }
    FixedKeyFieldsOk(g);
  }

  /** A name MongoDB accepts as a field of an expression object such as the
      group `_id`: it does not start with `$` and has no `.`; nor has it a NUL
      character, which cannot occur in a BSON key. */
  predicate FieldNameOk(k: string)
  {
    (k == "" || k[0] != '$') && '.' !in k && '\0' !in k
  }

  /** `$group` accepts the `_id` object only when every field name is usable;
      otherwise `aggregate` throws. */
  predicate GroupIdAccepted(spec: map<string, string>)
  {
    forall k :: k in spec ==> FieldNameOk(k)
  }

  /** The fixed fields of the key are usable, so the key's only doubtful
      field is `group_by`. */
  lemma FixedKeyFieldsOk(g: string)
    ensures (forall k :: k in KeyFields(g) ==> FieldNameOk(k)) <==> FieldNameOk(g)
  {
    assert FieldNameOk("date") && FieldNameOk("type") && FieldNameOk("election_id") && FieldNameOk("nuance");
  }

  /** An `_id` whose every field reads the path of its own name is the
      document's projection onto those names. */
  lemma PathSpecIsProjection(spec: map<string, string>, d: DataPoint)
    requires forall k :: k in spec ==> spec[k] == "$" + k
    ensures EvalGroupId(spec, d) == Project(d, spec.Keys)
  {
    forall k | k in spec ensures Eval(d, spec[k]) == FieldOf(d, k) {
      assert spec[k][1..] == k;
    }
  }

  // ---------------------------------------------------------------- pipeline

  /** One output document `{ _id, sum_value }`. */
  datatype Row = Row(id: GroupKey, sumValue: real)

  /** A matched data point reduced to what `$group` uses: its key and `value`. */
  datatype Keyed = Keyed(id: GroupKey, value: real)

  /** The `$match` stage: the matching data points, in order. */
  function MatchStage(q: MatchQuery, ds: seq<DataPoint>): (r: seq<DataPoint>)
    ensures forall d :: d in r <==> d in ds && Matches(q, d)
  {
    if ds == [] then []
    else MatchStage(q, ds[..|ds| - 1]) + (if Matches(q, ds[|ds| - 1]) then [ds[|ds| - 1]] else [])
  }

  /** The data points a request selects, in order. */
  function Selected(req: SearchRequest, ds: seq<DataPoint>): seq<DataPoint>
  {
    if ds == [] then []
    else Selected(req, ds[..|ds| - 1]) + (if Selects(req, ds[|ds| - 1]) then [ds[|ds| - 1]] else [])
  }

  function EvalAll(spec: map<string, string>, ms: seq<DataPoint>): seq<Keyed>
  {
    seq(|ms|, i requires 0 <= i < |ms| => Keyed(EvalGroupId(spec, ms[i]), ms[i].value))
  }

  function ProjectAll(fields: set<string>, ms: seq<DataPoint>): seq<Keyed>
  {
    seq(|ms|, i requires 0 <= i < |ms| => Keyed(Project(ms[i], fields), ms[i].value))
  }

  function SumFor(ps: seq<Keyed>, k: GroupKey): real
  {
    if ps == [] then 0.0
    else SumFor(ps[..|ps| - 1], k) + (if ps[|ps| - 1].id == k then ps[|ps| - 1].value else 0.0)
  }

  function TotalOf(ps: seq<Keyed>): real
  {
    if ps == [] then 0.0 else TotalOf(ps[..|ps| - 1]) + ps[|ps| - 1].value
  }

  /** The sum of `value` over data points. */
  function ValueTotal(ms: seq<DataPoint>): real
  {
    if ms == [] then 0.0 else ValueTotal(ms[..|ms| - 1]) + ms[|ms| - 1].value
  }

  function KeysOf(ps: seq<Keyed>): set<GroupKey>
  {
    set i | 0 <= i < |ps| :: ps[i].id
  }

  function IdsOf(rows: seq<Row>): set<GroupKey>
  {
    set i | 0 <= i < |rows| :: rows[i].id
  }

  predicate DistinctIds(rows: seq<Row>)
  {
    forall i, j :: 0 <= i < j < |rows| ==> rows[i].id != rows[j].id
  }

  /** The sum of the rows whose `_id` is `k`. */
  function SumOf(rows: seq<Row>, k: GroupKey): real
  {
    if rows == [] then 0.0 else (if rows[0].id == k then rows[0].sumValue else 0.0) + SumOf(rows[1..], k)
  }

  function RowsTotal(rows: seq<Row>): real
  {
    if rows == [] then 0.0 else rows[0].sumValue + RowsTotal(rows[1..])
  }

  lemma IdsOfCons(x: Row, rest: seq<Row>)
    ensures IdsOf([x] + rest) == {x.id} + IdsOf(rest)
  {
    var r := [x] + rest;
    forall k | k in IdsOf(r) ensures k in {x.id} + IdsOf(rest) {
      var i :| 0 <= i < |r| && r[i].id == k;
      if i > 0 {
        assert rest[i - 1].id == k;
      }
    }
    forall k | k in IdsOf(rest) ensures k in IdsOf(r) {
      var i :| 0 <= i < |rest| && rest[i].id == k;
      assert r[i + 1].id == k;
    }
    assert r[0].id == x.id;
  }

  /** `$sum` of one more document into the groups seen so far. */
  function AddTo(rows: seq<Row>, k: GroupKey, v: real): seq<Row>
  {
    if rows == [] then [Row(k, v)]
    else if rows[0].id == k then [Row(k, rows[0].sumValue + v)] + rows[1..]
    else [rows[0]] + AddTo(rows[1..], k, v)
  }

  lemma {:induction false} AddToIds(rows: seq<Row>, k: GroupKey, v: real)
    ensures IdsOf(AddTo(rows, k, v)) == IdsOf(rows) + {k}
    ensures DistinctIds(rows) ==> DistinctIds(AddTo(rows, k, v))
  {
    if rows == [] {
      IdsOfCons(Row(k, v), []);
    } else {
      assert rows == [rows[0]] + rows[1..];
      IdsOfCons(rows[0], rows[1..]);
      if rows[0].id == k {
        IdsOfCons(Row(k, rows[0].sumValue + v), rows[1..]);
      } else {
        AddToIds(rows[1..], k, v);
        IdsOfCons(rows[0], AddTo(rows[1..], k, v));
        if DistinctIds(rows) {
          assert rows[0].id !in IdsOf(rows[1..]);
        }
      }
    }
  }

  lemma {:induction false} AddToSums(rows: seq<Row>, k: GroupKey, v: real, k': GroupKey)
    ensures SumOf(AddTo(rows, k, v), k') == SumOf(rows, k') + (if k' == k then v else 0.0)
    ensures RowsTotal(AddTo(rows, k, v)) == RowsTotal(rows) + v
  {
    if rows == [] {
    } else if rows[0].id == k {
      var r := AddTo(rows, k, v);
      assert r[1..] == rows[1..];
    } else {
      var r := AddTo(rows, k, v);
      AddToSums(rows[1..], k, v, k');
      assert r[1..] == AddTo(rows[1..], k, v);
    }
  }

  /** The `$group` stage with `sum_value: { $sum: "$value" }`, groups in
      order of first appearance. */
  function GroupStage(ps: seq<Keyed>): seq<Row>
  {
    if ps == [] then [] else AddTo(GroupStage(ps[..|ps| - 1]), ps[|ps| - 1].id, ps[|ps| - 1].value)
  }

  /** `_id.date`, or missing. */
  function DateOf(r: Row): FieldValue
  {
    if "date" in r.id then r.id["date"] else Missing
  }

  /** The `$sort: { "_id.date": 1 }` stage. MongoDB does not fix the order of
      equal dates; this one is one of the orders it may return. */
  function SortStage(rows: seq<Row>): seq<Row>
  {
    SortBy(rows, DateOf)
  }

  /** The whole aggregation pipeline. */
  function RunPipeline(ds: seq<DataPoint>, q: MatchQuery, spec: map<string, string>): seq<Row>
  {
    SortStage(GroupStage(EvalAll(spec, MatchStage(q, ds))))
  }

  // ---------------------------------------------------------------- what a search returns

  predicate DatedRow(r: Row)
  {
    "date" in r.id && r.id["date"].Day?
  }

  /** `rows` are the groups of `keyed`: one row per distinct key, holding
      the sum of the values with that key. */
  ghost predicate IsGroupingOf(keyed: seq<Keyed>, rows: seq<Row>)
  {
    && DistinctIds(rows)
    && IdsOf(rows) == KeysOf(keyed)
    && (forall i :: 0 <= i < |rows| ==> rows[i].sumValue == SumFor(keyed, rows[i].id))
  }

  /** Every row has a date, and the dates never decrease. */
  ghost predicate InDateOrder(rows: seq<Row>)
  {
    && (forall i :: 0 <= i < |rows| ==> DatedRow(rows[i]))
    && (forall i, j :: 0 <= i < j < |rows| ==> rows[i].id["date"].day <= rows[j].id["date"].day)
  }

  /** What `/search` promises: one row per distinct group key among the
      selected data points, each holding the sum of their values, in
      non-decreasing date order. */
  ghost predicate IsSearchResult(ds: seq<DataPoint>, req: SearchRequest, rows: seq<Row>)
  {
    && IsGroupingOf(ProjectAll(KeyFields(GroupByField(req)), Selected(req, ds)), rows)
    && InDateOrder(rows)
  }

  /** The answer: status 200 with `{ ok: true, data }`, or status 500 with
      `{ ok: false, code: SERVER_ERROR }` when the aggregation throws. */
  datatype SearchResponse = Success(data: seq<Row>) | ServerError

  /** The `/search` handler: build the query and the group `_id`, run the
      pipeline; a `group_by` MongoDB cannot use as a field name makes the
      aggregation throw. */
  method HandleSearch(ds: seq<DataPoint>, req: SearchRequest) returns (resp: SearchResponse)
    ensures resp.Success? <==> FieldNameOk(GroupByField(req))
    ensures resp.Success? ==> IsSearchResult(ds, req, resp.data)
    ensures resp.Success? ==> RowsTotal(resp.data) == ValueTotal(Selected(req, ds))
  {
    var q := BuildMatchQuery(req);
    var spec := BuildGroupId(GroupByField(req));
    if forall k | k in spec :: FieldNameOk(k) {
      var rows := RunPipeline(ds, q, spec);
      PipelineMeetsSearch(ds, req, q, spec);
      PipelineTotal(ds, req, q, spec);
      resp := Success(rows);
    } else {
      resp := ServerError;
    }
  }

  /** A `group_by` of "$x", "a.b" or "a\0b" is answered with status 500. */
  lemma UnusableGroupByFails(req: SearchRequest)
    requires req.groupBy == Some("$x") || req.groupBy == Some("a.b") || req.groupBy == Some("a\0b")
    ensures !FieldNameOk(GroupByField(req))
  {
    if req.groupBy == Some("a.b") {
      assert "a.b"[1] == '.';
    } else if req.groupBy == Some("a\0b") {
      assert "a\0b"[1] == '\0';
    }
  }

  // ---------------------------------------------------------------- lemmas

  lemma {:induction false} MatchStageIsSelected(q: MatchQuery, req: SearchRequest, ds: seq<DataPoint>)
    requires forall d :: Matches(q, d) <==> Selects(req, d)
    ensures MatchStage(q, ds) == Selected(req, ds)
  {
    if ds != [] {
      MatchStageIsSelected(q, req, ds[..|ds| - 1]);
    }
  }

  lemma {:induction false} SumOfDistinct(rows: seq<Row>, i: int)
    requires DistinctIds(rows) && 0 <= i < |rows|
    ensures SumOf(rows, rows[i].id) == rows[i].sumValue
  {
    if i == 0 {
      SumOfAbsent(rows[1..], rows[0].id);
    } else {
      SumOfDistinct(rows[1..], i - 1);
    }
  }

  lemma {:induction false} SumOfAbsent(rows: seq<Row>, k: GroupKey)
    requires k !in IdsOf(rows)
    ensures SumOf(rows, k) == 0.0
  {
    if rows != [] {
      assert rows[0].id in IdsOf(rows);
      assert IdsOf(rows[1..]) <= IdsOf(rows) by {
        forall x | x in IdsOf(rows[1..]) ensures x in IdsOf(rows) {
          var i :| 0 <= i < |rows[1..]| && rows[1..][i].id == x;
          assert rows[i + 1].id == x;
        }
      }
      SumOfAbsent(rows[1..], k);
    }
  }

  /** The group stage yields one row per distinct key, in which `sum_value`
      is the sum of `value` over the documents with that key, and the sum of
      all rows is the sum of all documents. */
  lemma {:induction false} GroupStageSpec(ps: seq<Keyed>)
    ensures DistinctIds(GroupStage(ps))
    ensures IdsOf(GroupStage(ps)) == KeysOf(ps)
    ensures forall k :: SumOf(GroupStage(ps), k) == SumFor(ps, k)
    ensures forall i :: 0 <= i < |GroupStage(ps)| ==> GroupStage(ps)[i].sumValue == SumFor(ps, GroupStage(ps)[i].id)
    ensures RowsTotal(GroupStage(ps)) == TotalOf(ps)
  {
    if ps == [] {
    } else {
      var init := ps[..|ps| - 1];
      GroupStageSpec(init);
      AddToIds(GroupStage(init), ps[|ps| - 1].id, ps[|ps| - 1].value);
      forall k ensures SumOf(GroupStage(ps), k) == SumFor(ps, k) {
        AddToSums(GroupStage(init), ps[|ps| - 1].id, ps[|ps| - 1].value, k);
      }
      AddToSums(GroupStage(init), ps[|ps| - 1].id, ps[|ps| - 1].value, ps[|ps| - 1].id);
      assert KeysOf(ps) == KeysOf(init) + {ps[|ps| - 1].id} by {
        assert forall i :: 0 <= i < |init| ==> init[i] == ps[i];
      }
    }
    forall i | 0 <= i < |GroupStage(ps)|
      ensures GroupStage(ps)[i].sumValue == SumFor(ps, GroupStage(ps)[i].id)
    {
      SumOfDistinct(GroupStage(ps), i);
    }
  }

  lemma PermutedRows(a: seq<Row>, b: seq<Row>)
    requires multiset(a) == multiset(b)
    ensures forall i :: 0 <= i < |a| ==> a[i] in b
    ensures IdsOf(a) == IdsOf(b)
  {
    forall i | 0 <= i < |a| ensures a[i] in b {
      assert a[i] in multiset(a);
    }
    forall i | 0 <= i < |b| ensures b[i] in a {
      assert b[i] in multiset(b);
    }
    forall x | x in IdsOf(a) ensures x in IdsOf(b) {
      var i :| 0 <= i < |a| && a[i].id == x;
      var j :| 0 <= j < |b| && b[j] == a[i];
    }
    forall x | x in IdsOf(b) ensures x in IdsOf(a) {
      var i :| 0 <= i < |b| && b[i].id == x;
      var j :| 0 <= j < |a| && a[j] == b[i];
    }
  }

  /** Sorting a grouping by date keeps it a grouping. */
  lemma SortedGroupingIsGrouping(keyed: seq<Keyed>, grouped: seq<Row>)
    requires IsGroupingOf(keyed, grouped)
    ensures IsGroupingOf(keyed, SortBy(grouped, DateOf))
  {
    var rows := SortBy(grouped, DateOf);
    assert Distinct(grouped);
    SortByDistinct(grouped, DateOf);
    PermutedRows(rows, grouped);
    forall i, j | 0 <= i < j < |rows| ensures rows[i].id != rows[j].id {
      var a :| 0 <= a < |grouped| && rows[i] == grouped[a];
      var b :| 0 <= b < |grouped| && rows[j] == grouped[b];
      assert rows[i] != rows[j];
    }
    forall i | 0 <= i < |rows| ensures rows[i].sumValue == SumFor(keyed, rows[i].id) {
      var a :| 0 <= a < |grouped| && rows[i] == grouped[a];
    }
  }

  /** Rows whose keys all carry a date, sorted by `_id.date`, are in date order. */
  lemma SortedDatedRows(keyed: seq<Keyed>, rows: seq<Row>)
    requires IdsOf(rows) == KeysOf(keyed)
    requires forall i :: 0 <= i < |keyed| ==> "date" in keyed[i].id && keyed[i].id["date"].Day?
    requires SortedBy(rows, DateOf)
    ensures InDateOrder(rows)
  {
    forall i | 0 <= i < |rows| ensures DatedRow(rows[i]) {
      assert rows[i].id in IdsOf(rows);
      var j :| 0 <= j < |keyed| && keyed[j].id == rows[i].id;
    }
  }

  lemma EvalAllIsProjectAll(spec: map<string, string>, fields: set<string>, ms: seq<DataPoint>)
    requires forall d :: EvalGroupId(spec, d) == Project(d, fields)
    ensures EvalAll(spec, ms) == ProjectAll(fields, ms)
  {
  }

  /** The rows the pipeline returns for the query and group `_id` built from
      a request are a search result for that request. */
  lemma PipelineMeetsSearch(ds: seq<DataPoint>, req: SearchRequest, q: MatchQuery, spec: map<string, string>)
    requires forall d :: Matches(q, d) <==> Selects(req, d)
    requires forall d :: EvalGroupId(spec, d) == Project(d, KeyFields(GroupByField(req)))
    ensures IsSearchResult(ds, req, RunPipeline(ds, q, spec))
  {
    var fields := KeyFields(GroupByField(req));
    MatchStageIsSelected(q, req, ds);
    var ms := Selected(req, ds);
    var keyed := ProjectAll(fields, ms);
    EvalAllIsProjectAll(spec, fields, ms);
    var grouped := GroupStage(keyed);
    GroupStageSpec(keyed);
    SortedGroupingIsGrouping(keyed, grouped);
    var rows := SortBy(grouped, DateOf);
    assert forall i :: 0 <= i < |keyed| ==> keyed[i].id == Project(ms[i], fields);
    SortedDatedRows(keyed, rows);
  }

  lemma {:induction false} RowsTotalRemove(b: seq<Row>, j: int)
    requires 0 <= j < |b|
    ensures RowsTotal(b) == b[j].sumValue + RowsTotal(b[..j] + b[j + 1..])
  {
    if j > 0 {
      RowsTotalRemove(b[1..], j - 1);
      assert b[1..][..j - 1] + b[1..][j..] == (b[..j] + b[j + 1..])[1..];
    } else {
      assert b[..j] + b[j + 1..] == b[1..];
    }
  }

  /** The total of the rows does not depend on their order. */
  lemma {:induction false} RowsTotalPermutation(a: seq<Row>, b: seq<Row>)
    requires multiset(a) == multiset(b)
    ensures RowsTotal(a) == RowsTotal(b)
  {
    if a != [] {
      var j := PermutationSplit(a, b);
      RowsTotalRemove(b, j);
      RowsTotalPermutation(a[1..], b[..j] + b[j + 1..]);
    } else {
      assert |b| == |multiset(b)| == 0;
    }
  }

  lemma {:induction false} ProjectAllTotal(fields: set<string>, ms: seq<DataPoint>)
    ensures TotalOf(ProjectAll(fields, ms)) == ValueTotal(ms)
  {
    if ms != [] {
      ProjectAllTotal(fields, ms[..|ms| - 1]);
      assert ProjectAll(fields, ms)[..|ms| - 1] == ProjectAll(fields, ms[..|ms| - 1]);
    }
  }

  /** The sums of all rows add up to the sum of the selected data points'
      values: every selected data point is counted in exactly one group. */
  lemma PipelineTotal(ds: seq<DataPoint>, req: SearchRequest, q: MatchQuery, spec: map<string, string>)
    requires forall d :: Matches(q, d) <==> Selects(req, d)
    requires forall d :: EvalGroupId(spec, d) == Project(d, KeyFields(GroupByField(req)))
    ensures RowsTotal(RunPipeline(ds, q, spec)) == ValueTotal(Selected(req, ds))
  {
    var fields := KeyFields(GroupByField(req));
    MatchStageIsSelected(q, req, ds);
    var ms := Selected(req, ds);
    EvalAllIsProjectAll(spec, fields, ms);
    var keyed := ProjectAll(fields, ms);
    GroupStageSpec(keyed);
    RowsTotalPermutation(SortBy(GroupStage(keyed), DateOf), GroupStage(keyed));
    ProjectAllTotal(fields, ms);
  }
}
