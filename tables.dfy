// Reads over in-memory tables: the `select ... where ...` queries of the
// storage layer and the `filter`/`find` calls of the client, on sequences.
module Tables {
  import opened Wrappers

  /** The first row that matches, as `const [row] = select ... where ...`
      and `Array.prototype.find` return it. */
  function FindFirst<T>(rows: seq<T>, matches: T -> bool): (r: Option<T>)
    ensures r.None? <==> forall i :: 0 <= i < |rows| ==> !matches(rows[i])
    ensures r.Some? ==> r.value in rows && matches(r.value)
  {
    if rows == [] then None
    else if matches(rows[0]) then Some(rows[0])
    else FindFirst(rows[1..], matches)
  }

  /** The row found is the first match: no earlier row matches. */
  lemma {:induction false} FindFirstIsFirst<T>(rows: seq<T>, matches: T -> bool, k: nat)
    requires k < |rows| && matches(rows[k])
    ensures FindFirst(rows, matches).Some?
    ensures exists j :: 0 <= j <= k && rows[j] == FindFirst(rows, matches).value
                        && forall i :: 0 <= i < j ==> !matches(rows[i])
  {
    if !matches(rows[0]) {
      FindFirstIsFirst(rows[1..], matches, k - 1);
      var j :| 0 <= j <= k - 1 && rows[1..][j] == FindFirst(rows[1..], matches).value
               && forall i :: 0 <= i < j ==> !matches(rows[1..][i]);
      assert rows[j + 1] == rows[1..][j];
      forall i | 0 <= i < j + 1 ensures !matches(rows[i]) {
        if i > 0 { assert rows[i] == rows[1..][i - 1]; }
      }
    } else {
      assert rows[0] == FindFirst(rows, matches).value;
    }
  }

  /** The rows that `keep`, in their original order (`where` / `Array.prototype.filter`). */
  function Where<T>(rows: seq<T>, keep: T -> bool): (r: seq<T>)
    ensures forall i :: 0 <= i < |r| ==> r[i] in rows && keep(r[i])
    ensures forall i :: 0 <= i < |rows| && keep(rows[i]) ==> rows[i] in r
    ensures |r| <= |rows|
  {
    if rows == [] then []
    else if keep(rows[0]) then [rows[0]] + Where(rows[1..], keep)
    else Where(rows[1..], keep)
  }

  /** Filtering distributes over concatenation: it keeps the relative order of rows. */
  lemma {:induction false} WhereAppend<T>(a: seq<T>, b: seq<T>, keep: T -> bool)
    ensures Where(a + b, keep) == Where(a, keep) + Where(b, keep)
  {
    if a == [] {
      assert a + b == b;
    } else {
      assert (a + b)[1..] == a[1..] + b;
      WhereAppend(a[1..], b, keep);
    }
  }

  /** A filter that keeps every row is the identity. */
  lemma {:induction false} WhereAll<T>(rows: seq<T>, keep: T -> bool)
    requires forall i :: 0 <= i < |rows| ==> keep(rows[i])
    ensures Where(rows, keep) == rows
  {
    if rows != [] {
      WhereAll(rows[1..], keep);
    }
  }

  /** Filtering keeps the multiset of the kept rows. */
  lemma {:induction false} WhereMultiset<T>(rows: seq<T>, keep: T -> bool, x: T)
    ensures multiset(Where(rows, keep))[x] == if keep(x) then multiset(rows)[x] else 0
  {
    if rows != [] {
      WhereMultiset(rows[1..], keep, x);
      assert rows == [rows[0]] + rows[1..];
    }
  }
}
