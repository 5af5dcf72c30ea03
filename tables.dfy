/** Tables as sequences of rows: the first row with a given key (what a
    `WHERE key = ... LIMIT 1` returns), and the unique-key invariant that a
    UNIQUE constraint or a primary key maintains. */
module Tables {
  import opened Wrappers

  /** Primary keys generated by the database. */
  type Uuid = string

  /** Times stand for `now()` readings, supplied by the caller. */
  type Time = nat

  /** The index of the first row whose key is `k`. */
  function IndexOf<T, K(==)>(rows: seq<T>, key: T -> K, k: K): (r: Option<nat>)
    ensures r.Some? ==> r.value < |rows| && key(rows[r.value]) == k
    ensures r.Some? ==> forall j :: 0 <= j < r.value ==> key(rows[j]) != k
    ensures r.None? <==> forall j :: 0 <= j < |rows| ==> key(rows[j]) != k
  {
    if rows == [] then None
    else if key(rows[0]) == k then Some(0)
    else match IndexOf(rows[1..], key, k)
      case None => None
      case Some(i) => Some(i + 1)
  }

  /** The first row whose key is `k`. */
  function Lookup<T, K(==)>(rows: seq<T>, key: T -> K, k: K): (r: Option<T>)
    ensures r.Some? ==> r.value in rows && key(r.value) == k
    ensures r.None? <==> forall x :: x in rows ==> key(x) != k
  {
    match IndexOf(rows, key, k)
    case None => None
    case Some(i) => Some(rows[i])
  }

  /** A row appended under a key no earlier row has is the one found for it. */
  lemma LookupAfterAppend<T, K>(rows: seq<T>, key: T -> K, x: T)
    requires Lookup(rows, key, key(x)).None?
    ensures Lookup(rows + [x], key, key(x)) == Some(x)
  {
    assert IndexOf(rows, key, key(x)).None?;
    assert (rows + [x])[|rows|] == x;
    assert IndexOf(rows + [x], key, key(x)) == Some(|rows|);
  }

  /** No two rows share a key. */
  ghost predicate UniqueKey<T, K>(rows: seq<T>, key: T -> K) {
    forall i, j :: 0 <= i < j < |rows| ==> key(rows[i]) != key(rows[j])
  }

  /** Appending a row whose key is absent keeps keys unique. */
  lemma AppendKeepsUnique<T, K>(rows: seq<T>, key: T -> K, x: T)
    requires UniqueKey(rows, key)
    requires forall j :: 0 <= j < |rows| ==> key(rows[j]) != key(x)
    ensures UniqueKey(rows + [x], key)
  {
    var s := rows + [x];
    forall i, j | 0 <= i < j < |s| ensures key(s[i]) != key(s[j]) {
      if j == |rows| {
        assert s[i] == rows[i];
      } else {
        assert s[i] == rows[i] && s[j] == rows[j];
      }
    }
  }

  /** Replacing a row by one with the same key keeps keys unique. */
  lemma ReplaceKeepsUnique<T, K>(rows: seq<T>, key: T -> K, i: nat, x: T)
    requires UniqueKey(rows, key) && i < |rows| && key(x) == key(rows[i])
    ensures UniqueKey(rows[i := x], key)
  {
    var s := rows[i := x];
    forall a, b | 0 <= a < b < |s| ensures key(s[a]) != key(s[b]) {
      assert key(s[a]) == key(rows[a]) && key(s[b]) == key(rows[b]);
    }
  }
}
