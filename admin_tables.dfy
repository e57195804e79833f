/**
 * What the three review consoles of the admin area (users, withdrawal
 * requests, appointments) share: a table kept as a map from id to row, the
 * list fetched from it, and the status tabs that filter that list. Every
 * fetch asks for the rows newest first (`.order(column, { ascending: false })`
 * on a time stamp).
 */
module AdminTables {
  import opened Common

  /** A status tab: every row, or the rows with one status. */
  datatype Filter<S> = All | Only(status: S)

  /** `rows.filter(r => filter === 'all' || r.status === filter)`. */
  function Filtered<R(==,!new), S(==)>(rows: seq<R>, key: R -> S, f: Filter<S>): (r: seq<R>)
    ensures f.All? ==> r == rows
    ensures f.Only? ==> forall x :: x in r <==> x in rows && key(x) == f.status
    ensures f.Only? ==> |r| == CountBy(rows, key, f.status)
    ensures Subsequence(r, rows)
  {
    if f.All? then
      SubsequenceOfItself(rows);
      rows
    else
      FilterBySubsequence(rows, key, f.status);
      FilterBy(rows, key, f.status)
  }

  lemma {:induction false} SubsequenceOfItself<R>(rows: seq<R>)
    ensures Subsequence(rows, rows)
    decreases |rows|
  {
    if |rows| > 0 {
      SubsequenceOfItself(rows[1..]);
    }
  }

  /** A tab shows a newest-first list newest first. */
  lemma FilteredKeepsDescending<R(!new), S>(rows: seq<R>, key: R -> S, f: Filter<S>, stamp: R -> int)
    requires Descending(rows, stamp)
    ensures Descending(Filtered(rows, key, f), stamp)
  {
    SubsequenceKeepsDescending(Filtered(rows, key, f), rows, stamp);
  }

  /** Rows in order of a time stamp, latest first. */
  predicate Descending<R>(rows: seq<R>, stamp: R -> int) {
    forall i, j :: 0 <= i < j < |rows| ==> stamp(rows[i]) >= stamp(rows[j])
  }

  lemma {:induction false} SubsequenceMembers<R>(sub: seq<R>, rows: seq<R>)
    requires Subsequence(sub, rows)
    ensures forall x :: x in sub ==> x in rows
    decreases |rows|
  {
    if |sub| > 0 {
      if sub[0] == rows[0] {
        SubsequenceMembers(sub[1..], rows[1..]);
        assert sub == [sub[0]] + sub[1..];
      } else {
        SubsequenceMembers(sub, rows[1..]);
      }
    }
  }

  /** Dropping rows from a list in stamp order leaves a list in stamp order. */
  lemma {:induction false} SubsequenceKeepsDescending<R>(sub: seq<R>, rows: seq<R>, stamp: R -> int)
    requires Subsequence(sub, rows) && Descending(rows, stamp)
    ensures Descending(sub, stamp)
    decreases |rows|
  {
    if |sub| > 0 {
      assert Descending(rows[1..], stamp);
      if sub[0] == rows[0] {
        SubsequenceKeepsDescending(sub[1..], rows[1..], stamp);
        SubsequenceMembers(sub[1..], rows[1..]);
        forall j | 0 < j < |sub|
          ensures stamp(sub[0]) >= stamp(sub[j])
        {
          assert sub[j] == sub[1..][j - 1];
          assert sub[j] in rows[1..];
          var k :| 0 <= k < |rows[1..]| && rows[1..][k] == sub[j];
          assert rows[k + 1] == sub[j];
        }
        forall i, j | 0 < i < j < |sub|
          ensures stamp(sub[i]) >= stamp(sub[j])
        {
          assert sub[i] == sub[1..][i - 1] && sub[j] == sub[1..][j - 1];
        }
      } else {
        SubsequenceKeepsDescending(sub, rows[1..], stamp);
      }
    }
  }

  /**
   * A fetch lists every row of the table and only rows of the table.
   */
  predicate Listing<R>(db: map<Id, R>, order: seq<Id>) {
    (forall i :: 0 <= i < |order| ==> order[i] in db)
    && (forall k :: k in db ==> k in order)
  }

  /**
   * The answer to `.order(column, { ascending: false })`: a listing that
   * names each row once, latest stamp first (rows with equal stamps in any
   * order).
   */
  predicate NewestFirst<R>(db: map<Id, R>, order: seq<Id>, stamp: R -> int) {
    Listing(db, order)
    && (forall i, j :: 0 <= i < j < |order| ==> order[i] != order[j])
    && (forall i, j :: 0 <= i < j < |order| ==> stamp(db[order[i]]) >= stamp(db[order[j]]))
  }

  /** The rows of the table in the listed order. */
  function RowsOf<R(==,!new)>(db: map<Id, R>, order: seq<Id>): (r: seq<R>)
    requires Listing(db, order)
    ensures |r| == |order| && forall i :: 0 <= i < |order| ==> r[i] == db[order[i]]
    ensures forall x :: x in r <==> x in db.Values
  {
    var r := seq(|order|, i requires 0 <= i < |order| => db[order[i]]);
    assert forall x :: x in db.Values ==> x in r by {
      forall x | x in db.Values ensures x in r {
        var k :| k in db && db[k] == x;
        var i :| 0 <= i < |order| && order[i] == k;
        assert r[i] == x;
      }
    }
    r
  }

  /** The rows of a newest-first listing: each row of the table once, latest first. */
  lemma NewestFirstRows<R(!new)>(db: map<Id, R>, order: seq<Id>, stamp: R -> int)
    requires NewestFirst(db, order, stamp)
    ensures Descending(RowsOf(db, order), stamp)
    ensures |RowsOf(db, order)| == |db|
  {
    var ks := set i | 0 <= i < |order| :: order[i];
    assert ks == db.Keys;
    DistinctCount(order);
  }

  /** A sequence without repeats has as many elements as it has distinct ones. */
  lemma {:induction false} DistinctCount<T>(s: seq<T>)
    requires forall i, j :: 0 <= i < j < |s| ==> s[i] != s[j]
    ensures |set i | 0 <= i < |s| :: s[i]| == |s|
    decreases |s|
  {
    if |s| > 0 {
      var t := s[..|s| - 1];
      DistinctCount(t);
      var st := set i | 0 <= i < |t| :: t[i];
      var ss := set i | 0 <= i < |s| :: s[i];
      assert ss == st + {s[|s| - 1]};
      assert s[|s| - 1] !in st;
    }
  }

  /**
   * A newest-first listing still answers the same query when the table
   * only changes existing rows and leaves their stamps alone.
   */
  lemma NewestFirstKeepsStamps<R>(db: map<Id, R>, db': map<Id, R>, order: seq<Id>, stamp: R -> int)
    requires NewestFirst(db, order, stamp) && db'.Keys == db.Keys
    requires forall k :: k in db ==> stamp(db'[k]) == stamp(db[k])
    ensures NewestFirst(db', order, stamp)
  {
  }
}
