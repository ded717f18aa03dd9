/** Sums over tables and the group-by that the counters of the source build up one row at a time. */
module Tallies {

  ghost function SumValues<K>(m: map<K, nat>): nat {
    if m == map[] then 0
    else
      var k :| k in m;
      m[k] + SumValues(m - {k})
  }

  lemma {:induction false} SumRemove<K>(m: map<K, nat>, k: K)
    requires k in m
    ensures SumValues(m) == m[k] + SumValues(m - {k})
    decreases |m|
  {
    var j :| j in m && SumValues(m) == m[j] + SumValues(m - {j});
    if j != k {
      SumRemove(m - {j}, k);
      SumRemove(m - {k}, j);
      assert m - {j} - {k} == m - {k} - {j};
    }
  }

  lemma CardSubset<T>(a: set<T>, b: set<T>)
    requires a <= b
    ensures |a| <= |b|
  {
    assert b == a + (b - a);
  }

  function Groups<T(==), K(==)>(rows: set<T>, f: T -> K): set<K> { set r | r in rows :: f(r) }

  function Members<T(==), K(==)>(rows: set<T>, f: T -> K, k: K): set<T> { set r | r in rows && f(r) == k }

  /** COUNT(*) ... GROUP BY f. */
  function Tally<T(==), K(==)>(rows: set<T>, f: T -> K): map<K, nat> {
    map k | k in Groups(rows, f) :: |Members(rows, f, k)|
  }

  /** clicks = clicks + 1, or a new row with 1. */
  function Bump<K(==)>(m: map<K, nat>, k: K): map<K, nat> { m[k := (if k in m then m[k] else 0) + 1] }

  lemma EmptyTally<T, K>(f: T -> K)
    ensures Tally({}, f) == map[]
  {
  }

  /** Counting one more row bumps its group: the incremental table is the group-by. */
  lemma TallyOneMore<T, K>(rows: set<T>, r: T, f: T -> K)
    requires r !in rows
    ensures Tally(rows + {r}, f) == Bump(Tally(rows, f), f(r))
  {
    var more := rows + {r};
    assert Groups(more, f) == Groups(rows, f) + {f(r)};
    forall k | k in Tally(more, f)
      ensures Tally(more, f)[k] == Bump(Tally(rows, f), f(r))[k]
    {
      var before := Members(rows, f, k);
      if k == f(r) {
        assert Members(more, f, k) == before + {r};
        if k !in Tally(rows, f) { assert before == {}; }
      } else {
        assert Members(more, f, k) == before;
      }
    }
  }

  lemma BumpSum<K>(m: map<K, nat>, k: K)
    ensures SumValues(Bump(m, k)) == SumValues(m) + 1
  {
    SumRemove(Bump(m, k), k);
    if k in m {
      SumRemove(m, k);
      assert Bump(m, k) - {k} == m - {k};
    } else {
      assert Bump(m, k) - {k} == m;
    }
  }

  /** The groups of a tally add up to the rows. */
  lemma {:induction false} TallySum<T, K>(rows: set<T>, f: T -> K)
    ensures SumValues(Tally(rows, f)) == |rows|
    decreases |rows|
  {
    if rows == {} {
      EmptyTally(f);
    } else {
      var r :| r in rows;
      TallySum(rows - {r}, f);
      TallyOneMore(rows - {r}, r, f);
      assert rows - {r} + {r} == rows;
      BumpSum(Tally(rows - {r}, f), f(r));
    }
  }

  function Restrict<K(==), V>(m: map<K, V>, keep: set<K>): map<K, V> { map k | k in m && k in keep :: m[k] }

  /** Selecting groups of a tally is tallying the selected rows. */
  lemma TallySelect<T, K>(rows: set<T>, f: T -> K, keep: set<K>, selected: set<T>)
    requires forall r :: r in selected <==> r in rows && f(r) in keep
    ensures Restrict(Tally(rows, f), keep) == Tally(selected, f)
  {
    forall k | k in Tally(rows, f) && k in keep
      ensures k in Tally(selected, f) && Tally(selected, f)[k] == Tally(rows, f)[k]
    {
      assert Members(selected, f, k) == Members(rows, f, k);
    }
  }
}
