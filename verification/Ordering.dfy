// Strict total orders, sorted enumerations of finite sets, and the text order that SQLite and
// Python both use to break ties. A query with ORDER BY, and a sort over distinct keys, each have
// exactly one answer; SortedUnique is what lets the rest of the project speak of "the" answer.

module Ordering {
  ghost predicate StrictTotal<T(!new)>(less: (T, T) -> bool) {
    && (forall x :: !less(x, x))
    && (forall x, y, z :: less(x, y) && less(y, z) ==> less(x, z))
    && (forall x, y :: x != y ==> less(x, y) || less(y, x))
  }

  ghost predicate Sorted<T(!new)>(less: (T, T) -> bool, s: seq<T>) {
    forall i, j :: 0 <= i < j < |s| ==> less(s[i], s[j])
  }

  /** s lists exactly the elements of xs, in strictly increasing order. */
  ghost predicate Enumerates<T(!new)>(less: (T, T) -> bool, s: seq<T>, xs: set<T>) {
    Sorted(less, s) && forall x :: x in s <==> x in xs
  }

  /** Text order: by code point, a proper prefix first. */
  predicate TextLess(a: string, b: string) {
    b != [] && (a == [] || a[0] < b[0] || (a[0] == b[0] && TextLess(a[1..], b[1..])))
  }

  lemma {:induction false} TextTrichotomy(a: string, b: string)
    ensures TextLess(a, b) || TextLess(b, a) || a == b
  {
    if a != [] && b != [] && a[0] == b[0] {
      TextTrichotomy(a[1..], b[1..]);
      assert a == [a[0]] + a[1..] && b == [b[0]] + b[1..];
    }
  }

  lemma {:induction false} TextIrreflexive(a: string)
    ensures !TextLess(a, a)
  {
    if a != [] {
      TextIrreflexive(a[1..]);
    }
  }

  lemma {:induction false} TextTransitive(a: string, b: string, c: string)
    requires TextLess(a, b) && TextLess(b, c)
    ensures TextLess(a, c)
  {
    if a != [] && a[0] == b[0] && b[0] == c[0] {
      TextTransitive(a[1..], b[1..], c[1..]);
    }
  }

  lemma TextIsTotal()
    ensures StrictTotal(TextLess)
  {
    forall a ensures !TextLess(a, a) { TextIrreflexive(a); }
    forall a, b, c | TextLess(a, b) && TextLess(b, c) ensures TextLess(a, c) { TextTransitive(a, b, c); }
    forall a, b | a != b ensures TextLess(a, b) || TextLess(b, a) { TextTrichotomy(a, b); }
  }

  /** A finite set has at most one sorted enumeration. */
  lemma {:induction false} SortedUnique<T(!new)>(less: (T, T) -> bool, s: seq<T>, t: seq<T>, xs: set<T>)
    requires StrictTotal(less)
    requires Enumerates(less, s, xs) && Enumerates(less, t, xs)
    ensures s == t
    decreases |s|
  {
    assert s != [] ==> s[0] in xs;
    assert t != [] ==> t[0] in xs;
    if s != [] && t != [] {
      assert s[0] in t && t[0] in s;
      assert s[0] == t[0];
      var rest := xs - {s[0]};
      forall x ensures x in s[1..] <==> x in rest { RestMembers(less, s, x); }
      forall x ensures x in t[1..] <==> x in rest { RestMembers(less, t, x); }
      SortedUnique(less, s[1..], t[1..], rest);
      assert s == [s[0]] + s[1..] && t == [t[0]] + t[1..];
    }
  }

  lemma RestMembers<T(!new)>(less: (T, T) -> bool, s: seq<T>, x: T)
    requires StrictTotal(less) && Sorted(less, s) && s != []
    ensures x in s[1..] <==> x in s && x != s[0]
  {
    assert s == [s[0]] + s[1..];
    if x in s[1..] {
      var i :| 0 <= i < |s[1..]| && s[1..][i] == x;
      assert less(s[0], s[i + 1]);
    }
  }

  /** Where a new element belongs in a sorted sequence. */
  function Insert<T>(less: (T, T) -> bool, x: T, s: seq<T>): (r: seq<T>) {
    if s == [] || less(x, s[0]) then [x] + s else [s[0]] + Insert(less, x, s[1..])
  }

  lemma {:induction false} InsertSorts<T(!new)>(less: (T, T) -> bool, x: T, s: seq<T>)
    requires StrictTotal(less) && Sorted(less, s) && x !in s
    ensures Sorted(less, Insert(less, x, s))
    ensures forall y :: y in Insert(less, x, s) <==> y == x || y in s
  {
    if s == [] || less(x, s[0]) {
      forall i, j | 0 <= i < j < |s| + 1 ensures less(([x] + s)[i], ([x] + s)[j]) {
        if i == 0 && j > 1 { assert less(s[0], s[j - 1]); }
      }
    } else {
      assert s == [s[0]] + s[1..];
      assert x !in s[1..];
      InsertSorts(less, x, s[1..]);
      var r := Insert(less, x, s[1..]);
      forall y | y in r ensures less(s[0], y) {
        if y != x { var i :| 0 <= i < |s[1..]| && s[1..][i] == y; assert less(s[0], s[i + 1]); }
      }
      forall j | 0 <= j < |r| ensures less(s[0], r[j]) { assert r[j] in r; }
    }
  }

  /** The ordering half of a query: the elements of a set in increasing order. */
  method OrderBy<T(!new, ==)>(less: (T, T) -> bool, xs: set<T>) returns (s: seq<T>)
    requires StrictTotal(less)
    ensures Enumerates(less, s, xs)
  {
    s := [];
    var rest := xs;
    while rest != {}
      invariant rest <= xs && Enumerates(less, s, xs - rest)
      decreases |rest|
    {
      var x :| x in rest;
      InsertSorts(less, x, s);
      s, rest := Insert(less, x, s), rest - {x};
    }
  }

  lemma {:induction false} EnumerationExists<T(!new)>(less: (T, T) -> bool, xs: set<T>)
    requires StrictTotal(less)
    ensures exists s :: Enumerates(less, s, xs)
    decreases |xs|
  {
    if xs == {} {
      assert Enumerates(less, [], xs);
    } else {
      var x :| x in xs;
      EnumerationExists(less, xs - {x});
      var s :| Enumerates(less, s, xs - {x});
      InsertSorts(less, x, s);
      assert Enumerates(less, Insert(less, x, s), xs);
    }
  }

  /** The sorted enumeration of a set, as a value specifications can mention. */
  ghost function InOrder<T(!new)>(less: (T, T) -> bool, xs: set<T>): (s: seq<T>)
    requires StrictTotal(less)
    ensures Enumerates(less, s, xs)
  {
    EnumerationExists(less, xs);
    var s :| Enumerates(less, s, xs);
    s
  }
}
