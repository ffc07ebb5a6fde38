// Keyset paging over jobs: each page resumes strictly after the last key of the one before it.

module Paging {
  import opened Wrappers
  import opened Lifecycle
  import opened Ordering
  import opened LedgerSpec
  import opened LedgerFacts

  /** The keys of the jobs a query asks for. */
  function Matching(jobs: map<Id, Job>, states: set<JobState>, route: Option<string>): set<Key> {
    set id | id in jobs && jobs[id].state in states && (route.None? || jobs[id].route == route.value) :: KeyOf(jobs[id])
  }

  /** The keys a cursor has not passed yet. */
  function After(keys: set<Key>, cursor: Option<Key>): set<Key> {
    set k | k in keys && (cursor.None? || KeyLess(cursor.value, k))
  }

  /** One page: at most `limit` keys, and a cursor exactly when more remain. */
  ghost function Page(keys: set<Key>, cursor: Option<Key>, limit: nat): (page: (seq<Key>, Option<Key>))
    requires limit >= 1
  {
    var rows := Ordered(After(keys, cursor));
    if |rows| > limit then (rows[..limit], Some(rows[limit - 1])) else (rows, None)
  }

  /** What remains after a full page is the rest of the ordered rows. */
  lemma RestAfterPage(keys: set<Key>, cursor: Option<Key>, limit: nat)
    requires limit >= 1 && |Ordered(After(keys, cursor))| > limit
    ensures var rows := Ordered(After(keys, cursor));
            Ordered(After(keys, Some(rows[limit - 1]))) == rows[limit..]
  {
    KeysAreTotal();
    var rows := Ordered(After(keys, cursor));
    var last := rows[limit - 1];
    var rest := After(keys, Some(last));
    forall j | 0 <= j < limit ensures !KeyLess(last, rows[j]) {
      if j < limit - 1 { assert KeyLess(rows[j], last); }
    }
    forall k ensures k in rows[limit..] <==> k in rest {
      if k in rows[limit..] {
        var i :| limit <= i < |rows| && rows[i] == k;
        assert KeyLess(rows[limit - 1], rows[i]);
        assert k in rows;
      }
      if k in rest {
        assert last in rows;
        if cursor.Some? { assert KeyLess(cursor.value, last) && KeyLess(last, k); }
        assert k in rows;
        var i :| 0 <= i < |rows| && rows[i] == k;
        assert rows[limit..][i - limit] == k;
      }
    }
    assert Enumerates(KeyLess, rows[limit..], rest);
    SortedUnique(KeyLess, rows[limit..], Ordered(rest), rest);
  }

  /** Follow the cursors to the end and concatenate the pages. */
  ghost function Walk(keys: set<Key>, cursor: Option<Key>, limit: nat): seq<Key>
    requires limit >= 1
    decreases |Ordered(After(keys, cursor))|
  {
    var (page, next) := Page(keys, cursor, limit);
    if next.None? then page
    else
      RestAfterPage(keys, cursor, limit);
      page + Walk(keys, next, limit)
  }

  /** Paging from the start yields every matching job once, in (created, id) order, for every page
      size and however many jobs share a timestamp. */
  lemma {:induction false} WalkFrom(keys: set<Key>, cursor: Option<Key>, limit: nat)
    requires limit >= 1
    ensures Walk(keys, cursor, limit) == Ordered(After(keys, cursor))
    decreases |Ordered(After(keys, cursor))|
  {
    var rows := Ordered(After(keys, cursor));
    if |rows| > limit {
      RestAfterPage(keys, cursor, limit);
      WalkFrom(keys, Some(rows[limit - 1]), limit);
      assert rows[..limit] + rows[limit..] == rows;
    }
  }

  lemma PagingIsExact(jobs: map<Id, Job>, states: set<JobState>, route: Option<string>, limit: nat)
    requires limit >= 1
    ensures Walk(Matching(jobs, states, route), None, limit) == Ordered(Matching(jobs, states, route))
  {
    var keys := Matching(jobs, states, route);
    WalkFrom(keys, None, limit);
    assert After(keys, None) == keys;
  }
}
