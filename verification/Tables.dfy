/** Arrays of rows used as tables: the stores keep rows in arrays and search them
    by a key; the proofs speak of the map from key to row. */
module Tables {
  import opened Wrappers

  ghost predicate Keyed<K, R>(key: R -> K, rows: seq<R>) {
    forall i, j | 0 <= i < j < |rows| :: key(rows[i]) != key(rows[j])
  }

  /** Array.prototype.find, answering the position. */
  function Find<K(==), R>(key: R -> K, rows: seq<R>, k: K): (at: Option<nat>)
    ensures at.Some? ==> at.value < |rows| && key(rows[at.value]) == k
    ensures at.None? ==> forall i | 0 <= i < |rows| :: key(rows[i]) != k
  {
    if rows == [] then None
    else if key(rows[0]) == k then Some(0)
    else
      match Find(key, rows[1..], k)
      case None => None
      case Some(i) => Some(i + 1)
  }

  ghost function Index<K, R>(key: R -> K, rows: seq<R>): map<K, R>
    requires Keyed(key, rows)
  {
    map i | 0 <= i < |rows| :: key(rows[i]) := rows[i]
  }

  lemma {:induction false} IndexLookup<K, R>(key: R -> K, rows: seq<R>, k: K)
    requires Keyed(key, rows)
    ensures k in Index(key, rows) <==> Find(key, rows, k).Some?
    ensures k in Index(key, rows) ==> Index(key, rows)[k] == rows[Find(key, rows, k).value]
  {
  }

  lemma IndexPut<K, R>(key: R -> K, rows: seq<R>, i: nat, r: R)
    requires Keyed(key, rows) && i < |rows| && key(r) == key(rows[i])
    ensures Keyed(key, rows[i := r])
    ensures Index(key, rows[i := r]) == Index(key, rows)[key(r) := r]
  {
    var after := rows[i := r];
    assert forall j | 0 <= j < |rows| :: key(after[j]) == key(rows[j]);
    var m := Index(key, after);
    assert forall j | 0 <= j < |rows| :: key(rows[j]) in m && m[key(rows[j])] == after[j] by {
      forall j | 0 <= j < |rows| ensures key(rows[j]) in m && m[key(rows[j])] == after[j] {
        assert key(after[j]) in m;
      }
    }
    assert key(after[i]) in m;
  }

  lemma IndexPushed<K, R>(key: R -> K, rows: seq<R>, r: R, k: K)
    requires Keyed(key, rows + [r]) && Keyed(key, rows)
    ensures k in Index(key, rows + [r]) <==> k == key(r) || k in Index(key, rows)
    ensures k in Index(key, rows) ==> Index(key, rows + [r])[k] == Index(key, rows)[k]
  {
    var after := rows + [r];
    assert after[|rows|] == r && forall j | 0 <= j < |rows| :: after[j] == rows[j];
    if k in Index(key, rows) {
      var j :| 0 <= j < |rows| && key(rows[j]) == k;
      assert key(after[j]) in Index(key, after);
    }
    if k in Index(key, after) {
      var j :| 0 <= j < |after| && key(after[j]) == k;
      if j < |rows| { assert key(rows[j]) in Index(key, rows); }
    }
  }

  lemma IndexPush<K, R>(key: R -> K, rows: seq<R>, r: R)
    requires Keyed(key, rows) && key(r) !in Index(key, rows)
    ensures Keyed(key, rows + [r])
    ensures Index(key, rows + [r]) == Index(key, rows)[key(r) := r]
  {
    var after := rows + [r];
    forall j | 0 <= j < |rows| ensures key(rows[j]) != key(r) {
      assert key(rows[j]) in Index(key, rows);
    }
    assert after[|rows|] == r;
    var m, n := Index(key, after), Index(key, rows)[key(r) := r];
    forall k ensures k in m <==> k in n { IndexPushed(key, rows, r, k); }
    forall k | k in m ensures m[k] == n[k] {
      IndexPushed(key, rows, r, k);
      assert key(after[|rows|]) in m;
    }
  }

  /** Rows rewritten in place without touching their keys. */
  lemma IndexRewritten<K, R>(key: R -> K, rows: seq<R>, after: seq<R>)
    requires Keyed(key, rows) && |after| == |rows|
    requires forall i | 0 <= i < |rows| :: key(after[i]) == key(rows[i])
    ensures Keyed(key, after) && Index(key, after).Keys == Index(key, rows).Keys
    ensures forall k | k in Index(key, rows) ::
      exists i :: 0 <= i < |rows| && Index(key, rows)[k] == rows[i] && Index(key, after)[k] == after[i]
  {
  }
}
