/**
 * The trends chart: how the browser reshapes the rows returned by the
 * search endpoint into a line chart. Rows are grouped by `_id[groupBy]` into
 * one series per key (polls and results kept apart, the nuance taken from
 * the first row of the key), the dates of all groups become the sorted
 * label list, and each series gets one value, one marker radius and one
 * marker border width per label, a result beating a poll at the same date.
 *
 * The property the browser reads the value from is a parameter, so that
 * the model can show what happens with the name the code uses and with the
 * name the server sends.
 */
module Chart {
  import opened Values
  import opened Search

  // ---------------------------------------------------------------- inputs

  /** `item._id[name]`; a key the `_id` does not have reads as undefined. */
  function IdField(r: Row, name: string): FieldValue
  {
    if name in r.id then r.id[name] else Missing
  }

  predicate AllDated(rows: seq<Row>)
  {
    forall i :: 0 <= i < |rows| ==> DatedRow(rows[i])
  }

  /** The day of `item._id.date`. */
  function RowDay(r: Row): int
    requires DatedRow(r)
  {
    r.id["date"].day
  }

  /** `item[field]` for a value property: a row holds `_id` and `sum_value`
      only, so any other property name reads as undefined (`None`). */
  function RowValue(r: Row, field: string): (v: Option<real>)
    ensures v.Some? <==> field == "sum_value"
    ensures v.Some? ==> v.value == r.sumValue
  {
    if field == "sum_value" then Some(r.sumValue) else None
  }

  /** The property name the chart code reads. */
  const ReadValueField: string := "avg_value"

  /** The property name the search endpoint writes. */
  const SentValueField: string := "sum_value"

  predicate IsPoll(r: Row)
  {
    IdField(r, "type") == Str("poll")
  }

  // ---------------------------------------------------------------- groups

  /** One `{ date, value }` entry of a group. */
  datatype Point = Point(date: int, value: Option<real>)

  /** One entry of `groupedData`. */
  datatype Group = Group(polls: seq<Point>, results: seq<Point>, nuance: FieldValue)

  function PointOf(r: Row, valueField: string): Point
    requires DatedRow(r)
  {
    Point(RowDay(r), RowValue(r, valueField))
  }

  /** The group keys in order of first appearance. */
  function KeysInOrder(rows: seq<Row>, groupBy: string): seq<FieldValue>
  {
    if rows == [] then []
    else
      var keys := KeysInOrder(rows[..|rows| - 1], groupBy);
      var k := IdField(rows[|rows| - 1], groupBy);
      if k in keys then keys else keys + [k]
  }

  /** The entries pushed onto `polls` of key `k`: the poll rows with that key, in order. */
  function PollsFor(rows: seq<Row>, groupBy: string, valueField: string, k: FieldValue): seq<Point>
    requires AllDated(rows)
  {
    if rows == [] then []
    else
      var last := rows[|rows| - 1];
      PollsFor(rows[..|rows| - 1], groupBy, valueField, k)
        + (if IdField(last, groupBy) == k && IsPoll(last) then [PointOf(last, valueField)] else [])
  }

  /** The entries pushed onto `results` of key `k`: every other row with that key. */
  function ResultsFor(rows: seq<Row>, groupBy: string, valueField: string, k: FieldValue): seq<Point>
    requires AllDated(rows)
  {
    if rows == [] then []
    else
      var last := rows[|rows| - 1];
      ResultsFor(rows[..|rows| - 1], groupBy, valueField, k)
        + (if IdField(last, groupBy) == k && !IsPoll(last) then [PointOf(last, valueField)] else [])
  }

  /** Row `i` is the first row with key `k`. */
  predicate FirstKeyAt(rows: seq<Row>, groupBy: string, k: FieldValue, i: int)
  {
    0 <= i < |rows| && IdField(rows[i], groupBy) == k && forall j :: 0 <= j < i ==> IdField(rows[j], groupBy) != k
  }

  /** The nuance of the first row with key `k`. */
  function FirstNuance(rows: seq<Row>, groupBy: string, k: FieldValue): FieldValue
  {
    if rows == [] then Missing
    else if IdField(rows[0], groupBy) == k then IdField(rows[0], "nuance")
    else FirstNuance(rows[1..], groupBy, k)
  }

  function GroupOf(rows: seq<Row>, groupBy: string, valueField: string, k: FieldValue): Group
    requires AllDated(rows)
  {
    Group(PollsFor(rows, groupBy, valueField, k), ResultsFor(rows, groupBy, valueField, k),
      FirstNuance(rows, groupBy, k))
  }

  /** The `forEach` that fills `groupedData`; `keys` is the order in which
      its properties were created. */
  method GroupRows(rows: seq<Row>, groupBy: string, valueField: string)
    returns (keys: seq<FieldValue>, groups: map<FieldValue, Group>)
    requires AllDated(rows)
    ensures keys == KeysInOrder(rows, groupBy)
    ensures forall k :: k in groups <==> k in keys
    ensures forall k :: k in groups ==> groups[k] == GroupOf(rows, groupBy, valueField, k)
  {
    keys := [];
    groups := map[];
    for i := 0 to |rows|
      invariant keys == KeysInOrder(rows[..i], groupBy)
      invariant forall k :: k in groups <==> k in keys
      invariant forall k :: k in groups ==> groups[k] == GroupOf(rows[..i], groupBy, valueField, k)
    {
      var item := rows[i];
      var key := IdField(item, groupBy);
      assert rows[..i + 1] == rows[..i] + [item];
      assert rows[..i + 1][..i] == rows[..i];
      var g: Group;
      if key in groups {
        g := groups[key];
      } else {
        GroupOfAbsent(rows[..i], groupBy, valueField, key);
        g := Group([], [], IdField(item, "nuance"));
        keys := keys + [key];
      }
      var entry := Point(RowDay(item), RowValue(item, valueField));
      if IsPoll(item) {
        g := g.(polls := g.polls + [entry]);
      } else {
        g := g.(results := g.results + [entry]);
      }
      GroupOfSnocIsGroupOf(rows[..i], item, groupBy, valueField, key);
      forall k | k in groups && k != key
        ensures groups[k] == GroupOf(rows[..i + 1], groupBy, valueField, k)
      {
        GroupOfSnocIsGroupOf(rows[..i], item, groupBy, valueField, k);
      }
      groups := groups[key := g];
    }
    assert rows[..|rows|] == rows;
  }

  /** The group of `k` after one more row, in terms of the group before it. */
  function GroupOfSnoc(rows: seq<Row>, r: Row, groupBy: string, valueField: string, k: FieldValue): Group
    requires AllDated(rows) && DatedRow(r)
  {
    var g := GroupOf(rows, groupBy, valueField, k);
    var nuance := if k in KeysInOrder(rows, groupBy) then g.nuance
      else if IdField(r, groupBy) == k then IdField(r, "nuance") else Missing;
    if IdField(r, groupBy) != k then g.(nuance := nuance)
    else if IsPoll(r) then Group(g.polls + [PointOf(r, valueField)], g.results, nuance)
    else Group(g.polls, g.results + [PointOf(r, valueField)], nuance)
  }

  /** A key no row has has an empty group. */
  lemma {:induction false} GroupOfAbsent(rows: seq<Row>, groupBy: string, valueField: string, k: FieldValue)
    requires AllDated(rows)
    requires k !in KeysInOrder(rows, groupBy)
    ensures GroupOf(rows, groupBy, valueField, k) == Group([], [], Missing)
  {
    KeysInOrderMembers(rows, groupBy);
    FirstNuanceSkip(rows, [], groupBy, k);
    assert rows + [] == rows;
    if rows != [] {
      var init := rows[..|rows| - 1];
      KeysInOrderMembers(init, groupBy);
      assert forall i :: 0 <= i < |init| ==> init[i] == rows[i];
      GroupOfAbsent(init, groupBy, valueField, k);
    }
  }

  lemma GroupOfSnocIsGroupOf(rows: seq<Row>, r: Row, groupBy: string, valueField: string, k: FieldValue)
    requires AllDated(rows) && DatedRow(r)
    ensures AllDated(rows + [r])
    ensures GroupOf(rows + [r], groupBy, valueField, k) == GroupOfSnoc(rows, r, groupBy, valueField, k)
  {
    var rs := rows + [r];
    assert rs[..|rs| - 1] == rows;
    FirstNuanceSnoc(rows, r, groupBy);
    if k !in KeysInOrder(rows, groupBy) && IdField(r, groupBy) != k {
      KeysInOrderMembers(rows, groupBy);
      FirstNuanceSkip(rows, [r], groupBy, k);
    }
  }

  /** A key is in the list exactly when some row has it. */
  lemma {:induction false} KeysInOrderMembers(rows: seq<Row>, groupBy: string)
    ensures forall k :: k in KeysInOrder(rows, groupBy) <==>
      exists i :: 0 <= i < |rows| && IdField(rows[i], groupBy) == k
  {
    if rows != [] {
      var init := rows[..|rows| - 1];
      KeysInOrderMembers(init, groupBy);
      forall k | exists i :: 0 <= i < |rows| && IdField(rows[i], groupBy) == k
        ensures k in KeysInOrder(rows, groupBy)
      {
        var i :| 0 <= i < |rows| && IdField(rows[i], groupBy) == k;
        if i < |rows| - 1 {
          assert IdField(init[i], groupBy) == k;
        }
      }
      forall k | k in KeysInOrder(rows, groupBy)
        ensures exists i :: 0 <= i < |rows| && IdField(rows[i], groupBy) == k
      {
        if k in KeysInOrder(init, groupBy) {
          var i :| 0 <= i < |init| && IdField(init[i], groupBy) == k;
          assert IdField(rows[i], groupBy) == k;
        }
      }
    }
  }

  /** Each key appears once: one series per distinct key. */
  lemma {:induction false} KeysInOrderDistinct(rows: seq<Row>, groupBy: string)
    ensures Distinct(KeysInOrder(rows, groupBy))
  {
    if rows != [] {
      KeysInOrderDistinct(rows[..|rows| - 1], groupBy);
    }
  }

  /** Appending rows never reorders or drops the keys seen so far. */
  lemma {:induction false} KeysInOrderPrefix(rows: seq<Row>, more: seq<Row>, groupBy: string)
    ensures KeysInOrder(rows, groupBy) <= KeysInOrder(rows + more, groupBy)
  {
    if more != [] {
      var init := more[..|more| - 1];
      KeysInOrderPrefix(rows, init, groupBy);
      assert (rows + more)[..|rows + more| - 1] == rows + init;
    } else {
      assert rows + more == rows;
    }
  }

  /** Extending the rows by one: the first nuance of a key already seen does
      not change; a new key takes the nuance of the row that brings it. */
  lemma {:induction false} FirstNuanceSnoc(rows: seq<Row>, r: Row, groupBy: string)
    ensures forall k :: k in KeysInOrder(rows, groupBy) ==> FirstNuance(rows + [r], groupBy, k) == FirstNuance(rows, groupBy, k)
    ensures IdField(r, groupBy) !in KeysInOrder(rows, groupBy) ==>
      FirstNuance(rows + [r], groupBy, IdField(r, groupBy)) == IdField(r, "nuance")
  {
    KeysInOrderMembers(rows, groupBy);
    forall k | k in KeysInOrder(rows, groupBy)
      ensures FirstNuance(rows + [r], groupBy, k) == FirstNuance(rows, groupBy, k)
    {
      var i :| 0 <= i < |rows| && IdField(rows[i], groupBy) == k;
      FirstNuanceAppend(rows, [r], groupBy, k, i);
    }
    if IdField(r, groupBy) !in KeysInOrder(rows, groupBy) {
      FirstNuanceSkip(rows, [r], groupBy, IdField(r, groupBy));
    }
  }

  lemma {:induction false} FirstNuanceAppend(rows: seq<Row>, more: seq<Row>, groupBy: string, k: FieldValue, i: int)
    requires 0 <= i < |rows| && IdField(rows[i], groupBy) == k
    ensures FirstNuance(rows + more, groupBy, k) == FirstNuance(rows, groupBy, k)
  {
    if IdField(rows[0], groupBy) != k {
      assert (rows + more)[1..] == rows[1..] + more;
      FirstNuanceAppend(rows[1..], more, groupBy, k, i - 1);
    }
  }

  lemma {:induction false} FirstNuanceSkip(rows: seq<Row>, more: seq<Row>, groupBy: string, k: FieldValue)
    requires forall i :: 0 <= i < |rows| ==> IdField(rows[i], groupBy) != k
    ensures FirstNuance(rows + more, groupBy, k) == FirstNuance(more, groupBy, k)
  {
    if rows != [] {
      assert (rows + more)[0] == rows[0];
      assert (rows + more)[1..] == rows[1..] + more;
      FirstNuanceSkip(rows[1..], more, groupBy, k);
    } else {
      assert rows + more == more;
    }
  }

  /** A group's nuance is the `_id.nuance` of the first row carrying its key. */
  lemma {:induction false} FirstNuanceIsFirst(rows: seq<Row>, groupBy: string, k: FieldValue)
    requires k in KeysInOrder(rows, groupBy)
    ensures exists i :: FirstKeyAt(rows, groupBy, k, i) && FirstNuance(rows, groupBy, k) == IdField(rows[i], "nuance")
  {
    KeysInOrderMembers(rows, groupBy);
    FirstNuanceFound(rows, groupBy, k);
  }

  lemma {:induction false} FirstNuanceFound(rows: seq<Row>, groupBy: string, k: FieldValue)
    requires exists i :: 0 <= i < |rows| && IdField(rows[i], groupBy) == k
    ensures exists i :: FirstKeyAt(rows, groupBy, k, i) && FirstNuance(rows, groupBy, k) == IdField(rows[i], "nuance")
  {
    if IdField(rows[0], groupBy) == k {
      assert FirstKeyAt(rows, groupBy, k, 0);
    } else {
      var i :| 0 <= i < |rows| && IdField(rows[i], groupBy) == k;
      assert IdField(rows[1..][i - 1], groupBy) == k;
      FirstNuanceFound(rows[1..], groupBy, k);
      var m :| FirstKeyAt(rows[1..], groupBy, k, m) && FirstNuance(rows[1..], groupBy, k) == IdField(rows[1..][m], "nuance");
      assert forall j :: 0 <= j < m + 1 ==> IdField(rows[j], groupBy) != k by {
        forall j | 0 <= j < m + 1 ensures IdField(rows[j], groupBy) != k {
          if j > 0 {
            assert rows[j] == rows[1..][j - 1];
          }
        }
      }
      assert rows[m + 1] == rows[1..][m];
      assert FirstKeyAt(rows, groupBy, k, m + 1);
    }
  }

  /** When grouping by nuance a group's nuance is its own key, so the two
      colour rules agree. */
  lemma NuanceGroupsKeepTheirNuance(rows: seq<Row>, k: FieldValue)
    requires k in KeysInOrder(rows, "nuance")
    ensures FirstNuance(rows, "nuance", k) == k
  {
    FirstNuanceIsFirst(rows, "nuance", k);
  }

  /** Polls and results of a key split its rows: a poll row lands in `polls`,
      any other in `results`, and no row in both. */
  lemma {:induction false} PollsResultsPartition(rows: seq<Row>, groupBy: string, valueField: string, k: FieldValue)
    requires AllDated(rows)
    ensures |PollsFor(rows, groupBy, valueField, k)| + |ResultsFor(rows, groupBy, valueField, k)| == CountKey(rows, groupBy, k)
    ensures |PollsFor(rows, groupBy, valueField, k)| == CountPolls(rows, groupBy, k)
  {
    if rows != [] {
      PollsResultsPartition(rows[..|rows| - 1], groupBy, valueField, k);
    }
  }

  function CountKey(rows: seq<Row>, groupBy: string, k: FieldValue): nat
  {
    if rows == [] then 0
    else
      CountKey(rows[..|rows| - 1], groupBy, k) + (if IdField(rows[|rows| - 1], groupBy) == k then 1 else 0)
  }

  function CountPolls(rows: seq<Row>, groupBy: string, k: FieldValue): nat
  {
    if rows == [] then 0
    else
      CountPolls(rows[..|rows| - 1], groupBy, k)
        + (if IdField(rows[|rows| - 1], groupBy) == k && IsPoll(rows[|rows| - 1]) then 1 else 0)
  }

  /** Every entry of a group comes from a row with its key and the matching
      type, and every such row gives one. */
  lemma {:induction false} GroupEntries(rows: seq<Row>, groupBy: string, valueField: string, k: FieldValue)
    requires AllDated(rows)
    ensures forall p :: p in PollsFor(rows, groupBy, valueField, k) <==>
      exists i :: 0 <= i < |rows| && IdField(rows[i], groupBy) == k && IsPoll(rows[i]) && p == PointOf(rows[i], valueField)
    ensures forall p :: p in ResultsFor(rows, groupBy, valueField, k) <==>
      exists i :: 0 <= i < |rows| && IdField(rows[i], groupBy) == k && !IsPoll(rows[i]) && p == PointOf(rows[i], valueField)
  {
    if rows != [] {
      var init := rows[..|rows| - 1];
      GroupEntries(init, groupBy, valueField, k);
      assert forall i :: 0 <= i < |init| ==> init[i] == rows[i];
    }
  }

  // ---------------------------------------------------------------- labels

  function PointDates(ps: seq<Point>): set<int>
  {
    set i | 0 <= i < |ps| :: ps[i].date
  }

  function GroupDates(g: Group): set<int>
  {
    PointDates(g.polls) + PointDates(g.results)
  }

  /** The dates of the groups of `keys`. */
  function DatesIn(keys: seq<FieldValue>, groups: map<FieldValue, Group>): set<int>
    requires forall k :: k in keys ==> k in groups
  {
    if keys == [] then {} else DatesIn(keys[..|keys| - 1], groups) + GroupDates(groups[keys[|keys| - 1]])
  }

  predicate StrictlyIncreasing(xs: seq<int>)
  {
    forall i, j :: 0 <= i < j < |xs| ==> xs[i] < xs[j]
  }

  function AsDay(d: int): FieldValue { Day(d) }

  /** `allDates.add(p.date)` for each entry, in order. */
  method AddDates(seen: set<int>, order: seq<int>, ps: seq<Point>) returns (seen': set<int>, order': seq<int>)
    requires forall d :: d in order <==> d in seen
    requires Distinct(order)
    ensures seen' == seen + PointDates(ps)
    ensures forall d :: d in order' <==> d in seen'
    ensures Distinct(order')
  {
    seen', order' := seen, order;
    for j := 0 to |ps|
      invariant seen' == seen + PointDates(ps[..j])
      invariant forall d :: d in order' <==> d in seen'
      invariant Distinct(order')
    {
      assert PointDates(ps[..j + 1]) == PointDates(ps[..j]) + {ps[j].date} by {
        assert forall i :: 0 <= i < j ==> ps[..j + 1][i] == ps[..j][i];
        assert ps[..j + 1][j] == ps[j];
      }
      if ps[j].date !in seen' {
        seen' := seen' + {ps[j].date};
        order' := order' + [ps[j].date];
      }
    }
    assert ps[..|ps|] == ps;
  }

  /** The `allDates` set filled from every group, then `Array.from` and the
      chronological sort. */
  method CollectLabels(keys: seq<FieldValue>, groups: map<FieldValue, Group>) returns (labels: seq<int>)
    requires forall k :: k in keys ==> k in groups
    ensures StrictlyIncreasing(labels)
    ensures forall d :: d in labels <==> d in DatesIn(keys, groups)
  {
    var seen: set<int> := {};
    var order: seq<int> := [];
    for i := 0 to |keys|
      invariant seen == DatesIn(keys[..i], groups)
      invariant forall d :: d in order <==> d in seen
      invariant Distinct(order)
    {
      assert keys[..i + 1][..i] == keys[..i];
      var group := groups[keys[i]];
      seen, order := AddDates(seen, order, group.polls);
      seen, order := AddDates(seen, order, group.results);
    }
    assert keys[..|keys|] == keys;
    labels := SortDays(order);
  }

  /** `sort` with the comparator that reads `dd/mm/yyyy` as `yyyy-mm-dd`:
      chronological order of distinct days. */
  function SortDays(days: seq<int>): (r: seq<int>)
    requires Distinct(days)
    ensures StrictlyIncreasing(r)
    ensures forall d :: d in r <==> d in days
  {
    var r := SortBy(days, AsDay);
    SortByDistinct(days, AsDay);
    PermutationMembers(r, days);
    SortedDistinctDaysIncrease(r);
    r
  }

  lemma SortedDistinctDaysIncrease(r: seq<int>)
    requires SortedBy(r, AsDay) && Distinct(r)
    ensures StrictlyIncreasing(r)
  {
    forall i, j | 0 <= i < j < |r| ensures r[i] < r[j] {
      assert FieldLeq(AsDay(r[i]), AsDay(r[j]));
      assert r[i] != r[j];
    }
  }

  /** The dates of the groups built from `rows` are the dates of the rows. */
  lemma GroupDatesAreRowDates(rows: seq<Row>, groupBy: string, valueField: string,
                              keys: seq<FieldValue>, groups: map<FieldValue, Group>)
    requires AllDated(rows)
    requires keys == KeysInOrder(rows, groupBy)
    requires forall k :: k in groups <==> k in keys
    requires forall k :: k in groups ==> groups[k] == GroupOf(rows, groupBy, valueField, k)
    ensures forall d :: d in DatesIn(keys, groups) <==> d in RowDates(rows)
  {
    DatesInMembers(keys, groups);
    KeysInOrderMembers(rows, groupBy);
    forall d ensures d in DatesIn(keys, groups) <==> d in RowDates(rows) {
      if d in RowDates(rows) {
        var i :| 0 <= i < |rows| && RowDay(rows[i]) == d;
        var k := IdField(rows[i], groupBy);
        GroupEntries(rows, groupBy, valueField, k);
        var p := PointOf(rows[i], valueField);
        if IsPoll(rows[i]) {
          assert p in groups[k].polls;
          var j :| 0 <= j < |groups[k].polls| && groups[k].polls[j] == p;
          assert d in PointDates(groups[k].polls);
        } else {
          assert p in groups[k].results;
          var j :| 0 <= j < |groups[k].results| && groups[k].results[j] == p;
          assert d in PointDates(groups[k].results);
        }
      }
      if d in DatesIn(keys, groups) {
        var k :| k in keys && d in GroupDates(groups[k]);
        GroupEntries(rows, groupBy, valueField, k);
        if d in PointDates(groups[k].polls) {
          var j :| 0 <= j < |groups[k].polls| && groups[k].polls[j].date == d;
          assert groups[k].polls[j] in groups[k].polls;
        } else {
          var j :| 0 <= j < |groups[k].results| && groups[k].results[j].date == d;
          assert groups[k].results[j] in groups[k].results;
        }
      }
    }
  }

  /** The days of the rows. */
  function RowDates(rows: seq<Row>): set<int>
    requires AllDated(rows)
  {
    set i | 0 <= i < |rows| :: RowDay(rows[i])
  }

  lemma {:induction false} DatesInMembers(keys: seq<FieldValue>, groups: map<FieldValue, Group>)
    requires forall k :: k in keys ==> k in groups
    ensures forall d :: d in DatesIn(keys, groups) <==> exists k :: k in keys && d in GroupDates(groups[k])
  {
    if keys != [] {
      var init := keys[..|keys| - 1];
      DatesInMembers(init, groups);
      assert forall k :: k in init ==> k in keys;
      assert keys == init + [keys[|keys| - 1]];
    }
  }

  /** A strictly increasing list is fixed by its elements, so the labels do
      not depend on the order in which the dates were collected. */
  lemma {:induction false} StrictlyIncreasingUnique(a: seq<int>, b: seq<int>)
    requires StrictlyIncreasing(a) && StrictlyIncreasing(b)
    requires forall d :: d in a <==> d in b
    ensures a == b
  {
    assert a != [] ==> a[0] in a;
    assert b != [] ==> b[0] in b;
    if a != [] && b != [] {
      SameHeadSameTail(a, b);
      StrictlyIncreasingUnique(a[1..], b[1..]);
      assert a == [a[0]] + a[1..];
      assert b == [b[0]] + b[1..];
    }
  }

  /** The head of a strictly increasing list is below everything after it. */
  lemma HeadBelowTail(a: seq<int>)
    requires StrictlyIncreasing(a) && a != []
    ensures forall d :: d in a ==> a[0] <= d
    ensures forall d :: d in a[1..] <==> d in a && d != a[0]
  {
  }

  /** Two strictly increasing lists with the same elements share their head
      and the elements of their tails. */
  lemma SameHeadSameTail(a: seq<int>, b: seq<int>)
    requires StrictlyIncreasing(a) && StrictlyIncreasing(b) && a != [] && b != []
    requires forall d :: d in a <==> d in b
    ensures a[0] == b[0]
    ensures forall d :: d in a[1..] <==> d in b[1..]
  {
    HeadBelowTail(a);
    HeadBelowTail(b);
    assert a[0] in a && b[0] in b;
  }

  // ---------------------------------------------------------------- series

  predicate HasDate(ps: seq<Point>, date: int)
  {
    exists i :: 0 <= i < |ps| && ps[i].date == date
  }

  /** Entry `i` is the first entry at `date`. */
  predicate FirstDateAt(ps: seq<Point>, date: int, i: int)
  {
    0 <= i < |ps| && ps[i].date == date && forall j :: 0 <= j < i ==> ps[j].date != date
  }

  /** `find((p) => p.date === date)`. */
  function Find(ps: seq<Point>, date: int): (r: Option<Point>)
    ensures r.None? <==> !HasDate(ps, date)
    ensures r.Some? ==> exists i :: FirstDateAt(ps, date, i) && ps[i] == r.value
  {
    if ps == [] then None
    else if ps[0].date == date then Some(ps[0])
    else
      var r := Find(ps[1..], date);
      assert forall i :: 0 < i < |ps| ==> ps[i] == ps[1..][i - 1];
      if r.Some? then
        var i :| FirstDateAt(ps[1..], date, i) && ps[1..][i] == r.value;
        assert ps[i + 1] == r.value;
        assert FirstDateAt(ps, date, i + 1);
        r
      else
        r
  }

  /** One entry of a series' `data`: `null`, or a value that may itself be undefined. */
  datatype Cell = Gap | Plotted(value: Option<real>)

  /** `result ? result.value : poll ? poll.value : null`. */
  function CellAt(g: Group, date: int): (c: Cell)
    ensures c.Gap? <==> !HasDate(g.results, date) && !HasDate(g.polls, date)
    ensures HasDate(g.results, date) ==>
      exists i :: FirstDateAt(g.results, date, i) && c == Plotted(g.results[i].value)
    ensures !HasDate(g.results, date) && HasDate(g.polls, date) ==>
      exists i :: FirstDateAt(g.polls, date, i) && c == Plotted(g.polls[i].value)
  {
    match Find(g.results, date)
    case Some(result) => Plotted(result.value)
    case None =>
      match Find(g.polls, date)
      case Some(poll) => Plotted(poll.value)
      case None => Gap
  }

  function CombinedData(g: Group, labels: seq<int>): (r: seq<Cell>)
    ensures |r| == |labels|
    ensures forall i :: 0 <= i < |labels| ==> (r[i].Gap? <==> !HasDate(g.results, labels[i]) && !HasDate(g.polls, labels[i]))
  {
    seq(|labels|, i requires 0 <= i < |labels| => CellAt(g, labels[i]))
  }

  /** Marker radius: 8 at a date with a result, 3 elsewhere. */
  function PointRadius(g: Group, labels: seq<int>): (r: seq<int>)
    ensures |r| == |labels|
    ensures forall i :: 0 <= i < |labels| ==> (r[i] == 8 <==> HasDate(g.results, labels[i])) && (r[i] == 8 || r[i] == 3)
  {
    seq(|labels|, i requires 0 <= i < |labels| => if Find(g.results, labels[i]).Some? then 8 else 3)
  }

  /** Marker border width: 3 at a date with a result, 1 elsewhere. */
  function PointBorderWidth(g: Group, labels: seq<int>): (r: seq<int>)
    ensures |r| == |labels|
    ensures forall i :: 0 <= i < |labels| ==> (r[i] == 3 <==> HasDate(g.results, labels[i])) && (r[i] == 3 || r[i] == 1)
  {
    seq(|labels|, i requires 0 <= i < |labels| => if Find(g.results, labels[i]).Some? then 3 else 1)
  }

  const Gray: string := "#808080"

  const PoliticalColors: map<string, string> := map[
    "Extreme gauche" := "#8B0000",
    "Gauche" := "#FF6B6B",
    "Centre" := "#FFD700",
    "Droite" := "#87CEEB",
    "Extreme droite" := "#00008B",
    "Autre" := "#808080"]

  /** `POLITICAL_COLORS[v] || "#808080"`. */
  function ColorOf(v: FieldValue): (c: string)
    ensures c == Gray || c in PoliticalColors.Values
    ensures v.Str? && v.s in PoliticalColors ==> c == PoliticalColors[v.s]
    ensures !(v.Str? && v.s in PoliticalColors) ==> c == Gray
  {
    if v.Str? && v.s in PoliticalColors then PoliticalColors[v.s] else Gray
  }

  /** Grouping by nuance colours a series by its key, otherwise by its group's nuance. */
  function SeriesColor(groupBy: string, key: FieldValue, g: Group): (c: string)
    ensures c == Gray || c in PoliticalColors.Values
    ensures groupBy == "nuance" ==> c == ColorOf(key)
    ensures groupBy != "nuance" ==> c == ColorOf(g.nuance)
  {
    if groupBy == "nuance" then ColorOf(key) else ColorOf(g.nuance)
  }

  /** The six nuances get six different colours, and only "Autre" shares the
      fallback grey. */
  lemma NuanceColors()
    ensures forall a, b :: a in Records.Nuances && b in Records.Nuances && a != b ==> ColorOf(Str(a)) != ColorOf(Str(b))
    ensures forall a :: a in Records.Nuances ==> (ColorOf(Str(a)) == Gray <==> a == "Autre")
  {
    assert forall a :: a in Records.Nuances ==> a in PoliticalColors;
  }

  /** One element of `datasets`. */
  datatype Dataset = Dataset(
    seriesLabel: FieldValue,  // `label`
    data: seq<Cell>,
    borderColor: string,
    backgroundColor: string,
    pointBackgroundColor: string,
    pointBorderColor: string,
    pointRadius: seq<int>,
    pointBorderWidth: seq<int>,
    tension: real,
    borderWidth: int)

  function MakeDataset(key: FieldValue, g: Group, groupBy: string, labels: seq<int>): (d: Dataset)
    ensures d.seriesLabel == key
    ensures |d.data| == |labels| && |d.pointRadius| == |labels| && |d.pointBorderWidth| == |labels|
    ensures d.borderColor == d.backgroundColor == d.pointBackgroundColor == SeriesColor(groupBy, key, g)
    ensures forall i :: 0 <= i < |labels| ==> d.data[i] == CellAt(g, labels[i])
    ensures forall i :: 0 <= i < |labels| ==> (d.pointRadius[i] == 8 <==> d.data[i].Plotted? && HasDate(g.results, labels[i]))
    ensures d.pointRadius == PointRadius(g, labels) && d.pointBorderWidth == PointBorderWidth(g, labels)
    ensures d.pointBorderColor == "#ffffff" && d.tension == 0.3 && d.borderWidth == 2
  {
    var color := SeriesColor(groupBy, key, g);
    Dataset(key, CombinedData(g, labels), color, color, color, "#ffffff",
      PointRadius(g, labels), PointBorderWidth(g, labels), 0.3, 2)
  }

  /** The `forEach` over `Object.keys(groupedData)` pushing one dataset per key. */
  method BuildDatasets(keys: seq<FieldValue>, groups: map<FieldValue, Group>, groupBy: string, labels: seq<int>)
    returns (datasets: seq<Dataset>)
    requires forall k :: k in keys ==> k in groups
    ensures |datasets| == |keys|
    ensures forall i :: 0 <= i < |keys| ==> datasets[i] == MakeDataset(keys[i], groups[keys[i]], groupBy, labels)
  {
    datasets := [];
    for i := 0 to |keys|
      invariant |datasets| == i
      invariant forall j :: 0 <= j < i ==> datasets[j] == MakeDataset(keys[j], groups[keys[j]], groupBy, labels)
    {
      var key := keys[i];
      var color := SeriesColor(groupBy, key, groups[key]);
      var combined := CombinedData(groups[key], labels);
      var radius := PointRadius(groups[key], labels);
      var borderWidth := PointBorderWidth(groups[key], labels);
      datasets := datasets + [Dataset(key, combined, color, color, color, "#ffffff", radius, borderWidth, 0.3, 2)];
    }
  }

  // ---------------------------------------------------------------- maximum

  predicate Exceeds(v: Option<real>, m: real)
  {
    v.Some? && v.value > m
  }

  /** The running maximum over one list of entries; an undefined value
      never compares greater. */
  method MaxOver(m: real, ps: seq<Point>) returns (m': real)
    ensures m' >= m
    ensures forall i :: 0 <= i < |ps| ==> !Exceeds(ps[i].value, m')
    ensures m' == m || exists i :: 0 <= i < |ps| && ps[i].value == Some(m')
  {
    m' := m;
    for j := 0 to |ps|
      invariant m' >= m
      invariant forall i :: 0 <= i < j ==> !Exceeds(ps[i].value, m')
      invariant m' == m || exists i :: 0 <= i < j && ps[i].value == Some(m')
    {
      if Exceeds(ps[j].value, m') {
        m' := ps[j].value.value;
      }
    }
  }

  predicate BoundsGroup(g: Group, m: real)
  {
    && (forall i :: 0 <= i < |g.polls| ==> !Exceeds(g.polls[i].value, m))
    && (forall i :: 0 <= i < |g.results| ==> !Exceeds(g.results[i].value, m))
  }

  predicate AttainedIn(g: Group, m: real)
  {
    (exists i :: 0 <= i < |g.polls| && g.polls[i].value == Some(m))
    || (exists i :: 0 <= i < |g.results| && g.results[i].value == Some(m))
  }

  /** `maxValue`: the largest defined value of all groups, or 0. The chart
      code computes it and never uses it. */
  method MaxValue(keys: seq<FieldValue>, groups: map<FieldValue, Group>) returns (m: real)
    requires forall k :: k in keys ==> k in groups
    ensures m >= 0.0
    ensures forall k :: k in keys ==> BoundsGroup(groups[k], m)
    ensures m == 0.0 || exists k :: k in keys && AttainedIn(groups[k], m)
  {
    m := 0.0;
    for i := 0 to |keys|
      invariant m >= 0.0
      invariant forall j :: 0 <= j < i ==> BoundsGroup(groups[keys[j]], m)
      invariant m == 0.0 || exists j :: 0 <= j < i && AttainedIn(groups[keys[j]], m)
    {
      var g := groups[keys[i]];
      var m1 := MaxOver(m, g.polls);
      var m2 := MaxOver(m1, g.results);
      assert BoundsGroup(g, m2);
      assert forall j :: 0 <= j < i ==> BoundsGroup(groups[keys[j]], m2);
      if m2 != m {
        assert AttainedIn(g, m2);
      }
      m := m2;
    }
  }

  // ---------------------------------------------------------------- whole chart

  /** What `setChartData` receives. */
  datatype ChartData = ChartData(labels: seq<int>, datasets: seq<Dataset>)

  /** The chart the rows describe: the distinct row dates in increasing
      order, and one dataset per key in order of first appearance. */
  ghost predicate IsChartOf(rows: seq<Row>, groupBy: string, valueField: string, chart: ChartData)
    requires AllDated(rows)
  {
    var keys := KeysInOrder(rows, groupBy);
    && StrictlyIncreasing(chart.labels)
    && (forall d :: d in chart.labels <==> d in RowDates(rows))
    && |chart.datasets| == |keys|
    && forall i :: 0 <= i < |keys| ==>
         chart.datasets[i] == MakeDataset(keys[i], GroupOf(rows, groupBy, valueField, keys[i]), groupBy, chart.labels)
  }

  /** `processChartData`, reading each row's value from `valueField`. */
  method ProcessChartData(rows: seq<Row>, groupBy: string, valueField: string) returns (chart: ChartData)
    requires AllDated(rows)
    ensures IsChartOf(rows, groupBy, valueField, chart)
  {
    var keys, groups := GroupRows(rows, groupBy, valueField);
    var labels := CollectLabels(keys, groups);
    GroupDatesAreRowDates(rows, groupBy, valueField, keys, groups);
    var maxValue := MaxValue(keys, groups);
    var datasets := BuildDatasets(keys, groups, groupBy, labels);
    chart := ChartData(labels, datasets);
  }

  /** Rows sent by the search endpoint are dated, so the chart code can take them. */
  lemma SearchRowsAreDated(ds: seq<Records.DataPoint>, req: SearchRequest, rows: seq<Row>)
    requires IsSearchResult(ds, req, rows)
    ensures AllDated(rows)
  {
  }

  /** Every group entry read through `field` is undefined unless `field` is
      `sum_value`, and then it is the row's sum. */
  lemma {:induction false} EntryValues(rows: seq<Row>, groupBy: string, valueField: string, k: FieldValue)
    requires AllDated(rows)
    ensures forall p :: p in PollsFor(rows, groupBy, valueField, k) + ResultsFor(rows, groupBy, valueField, k) ==>
      (p.value.Some? <==> valueField == "sum_value")
  {
    GroupEntries(rows, groupBy, valueField, k);
  }

  /** As written: reading `avg_value` from the rows the server sends, every
      point of every series is undefined or a gap, whatever the rows. */
  lemma AvgValueChartHasNoValues(rows: seq<Row>, groupBy: string, chart: ChartData)
    requires AllDated(rows)
    requires IsChartOf(rows, groupBy, ReadValueField, chart)
    ensures forall i, j :: 0 <= i < |chart.datasets| && 0 <= j < |chart.labels| ==>
      chart.datasets[i].data[j] in {Gap, Plotted(None)}
  {
    var keys := KeysInOrder(rows, groupBy);
    forall i, j | 0 <= i < |chart.datasets| && 0 <= j < |chart.labels|
      ensures chart.datasets[i].data[j] in {Gap, Plotted(None)}
    {
      var g := GroupOf(rows, groupBy, ReadValueField, keys[i]);
      EntryValues(rows, groupBy, ReadValueField, keys[i]);
      var c := CellAt(g, chart.labels[j]);
      if c.Plotted? {
        if HasDate(g.results, chart.labels[j]) {
          var n :| FirstDateAt(g.results, chart.labels[j], n) && c == Plotted(g.results[n].value);
          assert g.results[n] in g.polls + g.results;
        } else {
          var n :| FirstDateAt(g.polls, chart.labels[j], n) && c == Plotted(g.polls[n].value);
          assert g.polls[n] in g.polls + g.results;
        }
      }
    }
  }

  /** Row `n` has key `k`, lies at `date` and its sum is the plotted cell `c`. */
  predicate RowPlottedAt(rows: seq<Row>, groupBy: string, k: FieldValue, date: int, n: int, c: Cell)
    requires AllDated(rows)
  {
    0 <= n < |rows| && IdField(rows[n], groupBy) == k && RowDay(rows[n]) == date && c == Plotted(Some(rows[n].sumValue))
  }

  /** Some result row (a type other than "poll") has key `k` and lies at `date`. */
  ghost predicate HasResultRowAt(rows: seq<Row>, groupBy: string, k: FieldValue, date: int)
    requires AllDated(rows)
  {
    exists m :: 0 <= m < |rows| && IdField(rows[m], groupBy) == k && RowDay(rows[m]) == date && !IsPoll(rows[m])
  }

  /** The cell of series `i` at label `j` is the sum of a row of that series
      at that date, and of a result row when the series has one there. */
  ghost predicate PlotsRowSum(rows: seq<Row>, groupBy: string, chart: ChartData, i: int, j: int)
    requires AllDated(rows)
    requires 0 <= i < |chart.datasets| == |KeysInOrder(rows, groupBy)| && 0 <= j < |chart.labels|
    requires |chart.datasets[i].data| == |chart.labels|
  {
    var k := KeysInOrder(rows, groupBy)[i];
    exists n :: RowPlottedAt(rows, groupBy, k, chart.labels[j], n, chart.datasets[i].data[j])
      && (HasResultRowAt(rows, groupBy, k, chart.labels[j]) ==> !IsPoll(rows[n]))
  }

  /** Corrected: reading `sum_value`, every plotted point carries the sum of
      a row with the series' key at that date, a result row when there is one. */
  lemma SumValueChartPlotsSums(rows: seq<Row>, groupBy: string, chart: ChartData)
    requires AllDated(rows)
    requires IsChartOf(rows, groupBy, SentValueField, chart)
    ensures forall i, j :: 0 <= i < |chart.datasets| && 0 <= j < |chart.labels| && chart.datasets[i].data[j].Plotted? ==>
      PlotsRowSum(rows, groupBy, chart, i, j)
  {
    var keys := KeysInOrder(rows, groupBy);
    forall i, j | 0 <= i < |chart.datasets| && 0 <= j < |chart.labels| && chart.datasets[i].data[j].Plotted?
      ensures PlotsRowSum(rows, groupBy, chart, i, j)
    {
      var g := GroupOf(rows, groupBy, SentValueField, keys[i]);
      GroupEntries(rows, groupBy, SentValueField, keys[i]);
      var c := CellAt(g, chart.labels[j]);
      if HasDate(g.results, chart.labels[j]) {
        var n :| FirstDateAt(g.results, chart.labels[j], n) && c == Plotted(g.results[n].value);
        assert g.results[n] in g.results;
        var m :| 0 <= m < |rows| && IdField(rows[m], groupBy) == keys[i] && !IsPoll(rows[m])
          && g.results[n] == PointOf(rows[m], SentValueField);
        assert RowPlottedAt(rows, groupBy, keys[i], chart.labels[j], m, chart.datasets[i].data[j]);
      } else {
        var n :| FirstDateAt(g.polls, chart.labels[j], n) && c == Plotted(g.polls[n].value);
        assert g.polls[n] in g.polls;
        var m :| 0 <= m < |rows| && IdField(rows[m], groupBy) == keys[i] && IsPoll(rows[m])
          && g.polls[n] == PointOf(rows[m], SentValueField);
        assert RowPlottedAt(rows, groupBy, keys[i], chart.labels[j], m, chart.datasets[i].data[j]);
        forall r | 0 <= r < |rows| && IdField(rows[r], groupBy) == keys[i] && !IsPoll(rows[r])
          ensures RowDay(rows[r]) != chart.labels[j]
        {
          assert PointOf(rows[r], SentValueField) in g.results;
        }
      }
    }
  }
}
