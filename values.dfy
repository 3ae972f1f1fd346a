/**
 * Values shared by the server and the browser code: optional values,
 * validation results, the dynamically typed field values of a stored
 * document, the ordering MongoDB and JavaScript use to sort them, and one
 * insertion sort over that ordering.
 */
module Values {

  datatype Option<+T> = None | Some(value: T) {
    function GetOr(default: T): T {
      match this
      case Some(v) => v
      case None => default
    }
  }

  datatype Result<+T, +E> = Ok(value: T) | Err(error: E)

  /** JavaScript truthiness of an optional string: present and not empty.
      It is also what a schema's `required` asks of a String path. */
  predicate Truthy(s: Option<string>) { s.Some? && s.value != "" }

  /** A field of a stored document, as read through a path such as `$party`.
      `Missing` is a path the document does not have. */
  datatype FieldValue = Missing | Null | Num(x: real) | Str(s: string) | Day(day: int)

  /** String comparison of JavaScript's default sort and of MongoDB:
      character by character, a proper prefix first. */
  predicate LexLeq(a: string, b: string)
  {
    |a| == 0 || (|b| > 0 && (a[0] < b[0] || (a[0] == b[0] && LexLeq(a[1..], b[1..]))))
  }

  lemma {:induction false} LexLeqTotal(a: string, b: string)
    ensures LexLeq(a, b) || LexLeq(b, a)
  {
    if |a| > 0 && |b| > 0 && a[0] == b[0] {
      LexLeqTotal(a[1..], b[1..]);
    }
  }

  lemma {:induction false} LexLeqTransitive(a: string, b: string, c: string)
    requires LexLeq(a, b) && LexLeq(b, c)
    ensures LexLeq(a, c)
  {
    if |a| > 0 && |b| > 0 && |c| > 0 && a[0] == b[0] == c[0] {
      LexLeqTransitive(a[1..], b[1..], c[1..]);
    }
  }

  lemma {:induction false} LexLeqAntisymmetric(a: string, b: string)
    requires LexLeq(a, b) && LexLeq(b, a)
    ensures a == b
  {
    if |a| > 0 && |b| > 0 {
      LexLeqAntisymmetric(a[1..], b[1..]);
      assert a == [a[0]] + a[1..];
      assert b == [b[0]] + b[1..];
    }
  }

  /** BSON comparison order of the kinds of value that occur here:
      missing and null, then numbers, then strings, then dates. */
  function Rank(v: FieldValue): nat
  {
    match v
    case Missing => 0
    case Null => 0
    case Num(_) => 1
    case Str(_) => 2
    case Day(_) => 3
  }

  predicate FieldLeq(a: FieldValue, b: FieldValue)
  {
    Rank(a) < Rank(b) ||
    (Rank(a) == Rank(b) &&
      match (a, b)
      case (Num(x), Num(y)) => x <= y
      case (Str(x), Str(y)) => LexLeq(x, y)
      case (Day(x), Day(y)) => x <= y
      case _ => true)
  }

  lemma FieldLeqTotal(a: FieldValue, b: FieldValue)
    ensures FieldLeq(a, b) || FieldLeq(b, a)
  {
    if a.Str? && b.Str? {
      LexLeqTotal(a.s, b.s);
    }
  }

  lemma FieldLeqTransitive(a: FieldValue, b: FieldValue, c: FieldValue)
    requires FieldLeq(a, b) && FieldLeq(b, c)
    ensures FieldLeq(a, c)
  {
    if a.Str? && b.Str? && c.Str? {
      LexLeqTransitive(a.s, b.s, c.s);
    }
  }

  ghost predicate SortedBy<T>(s: seq<T>, key: T -> FieldValue)
  {
    forall i, j :: 0 <= i < j < |s| ==> FieldLeq(key(s[i]), key(s[j]))
  }

  ghost predicate Distinct<T>(s: seq<T>)
  {
    forall i, j :: 0 <= i < j < |s| ==> s[i] != s[j]
  }

  /** Inserts `x` into a sorted sequence, before the first element it does
      not exceed. */
  function InsertBy<T>(x: T, s: seq<T>, key: T -> FieldValue): (r: seq<T>)
    requires SortedBy(s, key)
    ensures SortedBy(r, key)
    ensures multiset(r) == multiset(s) + multiset{x}
  {
    if s == [] then [x]
    else if FieldLeq(key(x), key(s[0])) then
      assert forall j :: 0 < j < |s| ==> FieldLeq(key(x), key(s[j])) by {
        forall j | 0 < j < |s| ensures FieldLeq(key(x), key(s[j])) {
          FieldLeqTransitive(key(x), key(s[0]), key(s[j]));
        }
      }
      [x] + s
    else
      var rest := InsertBy(x, s[1..], key);
      assert s == [s[0]] + s[1..];
      FieldLeqTotal(key(x), key(s[0]));
      assert forall j :: 0 <= j < |rest| ==> FieldLeq(key(s[0]), key(rest[j])) by {
        forall j | 0 <= j < |rest| ensures FieldLeq(key(s[0]), key(rest[j])) {
          assert rest[j] in multiset(rest);
          if rest[j] != x {
            assert rest[j] in s[1..];
          }
        }
      }
      [s[0]] + rest
  }

  lemma {:induction false} InsertByDistinct<T>(x: T, s: seq<T>, key: T -> FieldValue)
    requires SortedBy(s, key) && Distinct(s) && x !in s
    ensures Distinct(InsertBy(x, s, key))
  {
    if s != [] && !FieldLeq(key(x), key(s[0])) {
      var rest := InsertBy(x, s[1..], key);
      InsertByDistinct(x, s[1..], key);
      assert s[0] !in s[1..];
      assert multiset(rest)[s[0]] == multiset(s[1..])[s[0]] + multiset{x}[s[0]] == 0;
    }
  }

  /** Sorts by `key` in the order of `FieldLeq`; the result is a permutation
      of the input. */
  function SortBy<T>(s: seq<T>, key: T -> FieldValue): (r: seq<T>)
    ensures SortedBy(r, key)
    ensures multiset(r) == multiset(s)
    ensures |r| == |s|
  {
    if s == [] then []
    else
      assert s == [s[0]] + s[1..];
      InsertBy(s[0], SortBy(s[1..], key), key)
  }

  lemma {:induction false} SortByDistinct<T>(s: seq<T>, key: T -> FieldValue)
    requires Distinct(s)
    ensures Distinct(SortBy(s, key))
  {
    if s != [] {
      var rest := SortBy(s[1..], key);
      SortByDistinct(s[1..], key);
      assert s[0] !in s[1..];
      assert multiset(rest)[s[0]] == multiset(s[1..])[s[0]] == 0;
      InsertByDistinct(s[0], rest, key);
    }
  }

  /** Removing one element removes one occurrence of it. */
  lemma MultisetWithout<T>(s: seq<T>, j: int)
    requires 0 <= j < |s|
    ensures multiset(s[..j] + s[j + 1..]) == multiset(s) - multiset{s[j]}
  {
    assert s == s[..j] + [s[j]] + s[j + 1..];
  }

  /** The head of a permutation sits somewhere in the other list, and the
      rests are permutations of each other. */
  lemma PermutationSplit<T>(a: seq<T>, b: seq<T>) returns (j: int)
    requires multiset(a) == multiset(b) && a != []
    ensures 0 <= j < |b| && b[j] == a[0]
    ensures multiset(a[1..]) == multiset(b[..j] + b[j + 1..])
  {
    assert a[0] in multiset(a);
    j :| 0 <= j < |b| && b[j] == a[0];
    MultisetWithout(b, j);
    assert a == [a[0]] + a[1..];
  }

  /** Permutations have the same elements. */
  lemma PermutationMembers<T>(a: seq<T>, b: seq<T>)
    requires multiset(a) == multiset(b)
    ensures forall x :: x in a <==> x in b
  {
    forall x ensures x in a <==> x in b {
      assert x in a <==> x in multiset(a);
      assert x in b <==> x in multiset(b);
    }
  }
}
