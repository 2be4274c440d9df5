/**
 * A relational table as the sequence of its rows in insertion order (for the
 * tables with an auto-increment primary key, primary-key order), and the
 * `INSERT ... ON CONFLICT (key) DO UPDATE` (gorm `clause.OnConflict{UpdateAll: true}`)
 * statement that the portfolio writer issues against it. `key` selects the column
 * named in the conflict clause.
 */
module Tables {
  import opened Wrappers

  /** Position of the first row whose key is `k`, or `|t|` when there is none. */
  function IndexOfKey<R>(t: seq<R>, key: R -> string, k: string): (i: nat)
    ensures i <= |t|
    ensures i < |t| ==> key(t[i]) == k
    ensures forall j :: 0 <= j < i ==> key(t[j]) != k
    decreases |t|
  {
    if |t| == 0 then 0
    else if key(t[0]) == k then 0
    else 1 + IndexOfKey(t[1..], key, k)
  }

  /** The three facts about IndexOfKey determine it. */
  lemma IndexOfKeyIs<R>(t: seq<R>, key: R -> string, k: string, i: nat)
    requires i <= |t|
    requires i < |t| ==> key(t[i]) == k
    requires forall j :: 0 <= j < i ==> key(t[j]) != k
    ensures IndexOfKey(t, key, k) == i
  {
  }

  /** `SELECT ... WHERE key = k LIMIT 1`: the first row holding key `k`. */
  function Lookup<R>(t: seq<R>, key: R -> string, k: string): Option<R> {
    var i := IndexOfKey(t, key, k);
    if i < |t| then Some(t[i]) else None
  }

  /** The key values present in the table. */
  ghost function Keys<R>(t: seq<R>, key: R -> string): set<string> {
    set i | 0 <= i < |t| :: key(t[i])
  }

  /** The unique index on the conflict column holds. */
  ghost predicate UniqueKeys<R>(t: seq<R>, key: R -> string) {
    forall i, j :: 0 <= i < j < |t| ==> key(t[i]) != key(t[j])
  }

  lemma LookupFindsKeys<R>(t: seq<R>, key: R -> string, k: string)
    ensures Lookup(t, key, k).Some? <==> k in Keys(t, key)
    ensures Lookup(t, key, k).Some? ==> Lookup(t, key, k).value in t && key(Lookup(t, key, k).value) == k
  {
    var i := IndexOfKey(t, key, k);
    if k in Keys(t, key) {
      var j :| 0 <= j < |t| && key(t[j]) == k;
      assert i <= j;
    }
  }

  lemma ReplaceFacts<R>(t: seq<R>, key: R -> string, row: R, i: nat)
    requires i == IndexOfKey(t, key, key(row)) && i < |t|
    ensures Lookup(t[i := row], key, key(row)) == Some(row)
    ensures forall k :: k != key(row) ==> Lookup(t[i := row], key, k) == Lookup(t, key, k)
    ensures Keys(t[i := row], key) == Keys(t, key) + {key(row)}
    ensures UniqueKeys(t, key) ==> UniqueKeys(t[i := row], key)
    ensures key(row) in Keys(t, key)
  {
    var r := t[i := row];
    IndexOfKeyIs(r, key, key(row), i);
    forall k | k != key(row)
      ensures Lookup(r, key, k) == Lookup(t, key, k)
    {
      var m := IndexOfKey(t, key, k);
      assert m != i;
      IndexOfKeyIs(r, key, k, m);
    }
    forall j | 0 <= j < |t| ensures key(r[j]) == key(t[j]) { }
    assert Keys(r, key) == Keys(t, key);
  }

  lemma AppendFacts<R>(t: seq<R>, key: R -> string, row: R)
    requires IndexOfKey(t, key, key(row)) == |t|
    ensures Lookup(t + [row], key, key(row)) == Some(row)
    ensures forall k :: k != key(row) ==> Lookup(t + [row], key, k) == Lookup(t, key, k)
    ensures Keys(t + [row], key) == Keys(t, key) + {key(row)}
    ensures UniqueKeys(t, key) ==> UniqueKeys(t + [row], key)
    ensures key(row) !in Keys(t, key)
  {
    var r := t + [row];
    IndexOfKeyIs(r, key, key(row), |t|);
    forall k | k != key(row)
      ensures Lookup(r, key, k) == Lookup(t, key, k)
    {
      AppendOtherKey(t, key, row, k);
    }
    KeysSnoc(t, key, row);
  }

  /** Appending a row leaves the lookup of every other key as it was. */
  lemma AppendOtherKey<R>(t: seq<R>, key: R -> string, row: R, k: string)
    requires k != key(row)
    ensures Lookup(t + [row], key, k) == Lookup(t, key, k)
  {
    var r := t + [row];
    var m := IndexOfKey(t, key, k);
    if m < |t| {
      IndexOfKeyIs(r, key, k, m);
    } else {
      IndexOfKeyIs(r, key, k, |r|);
    }
  }

  lemma KeysSnoc<R>(t: seq<R>, key: R -> string, row: R)
    ensures Keys(t + [row], key) == Keys(t, key) + {key(row)}
  {
    var r := t + [row];
    forall x | x in Keys(r, key) ensures x in Keys(t, key) + {key(row)} {
      var j :| 0 <= j < |r| && key(r[j]) == x;
      if j < |t| {
        assert r[j] == t[j];
      }
    }
    forall x | x in Keys(t, key) + {key(row)} ensures x in Keys(r, key) {
      if x == key(row) {
        assert r[|t|] == row;
      } else {
        var j :| 0 <= j < |t| && key(t[j]) == x;
        assert r[j] == t[j];
      }
    }
  }

  /**
   * One row of an upsert: the row replaces the one holding its key in place, or is
   * appended when the key is new. Every column is overwritten, and no second row
   * for the key is ever created.
   */
  function Upsert<R>(t: seq<R>, key: R -> string, row: R): (r: seq<R>)
    ensures Lookup(r, key, key(row)) == Some(row)
    ensures forall k :: k != key(row) ==> Lookup(r, key, k) == Lookup(t, key, k)
    ensures Keys(r, key) == Keys(t, key) + {key(row)}
    ensures UniqueKeys(t, key) ==> UniqueKeys(r, key)
    ensures key(row) in Keys(t, key) ==> |r| == |t|
    ensures key(row) !in Keys(t, key) ==> |r| == |t| + 1
  {
    var i := IndexOfKey(t, key, key(row));
    if i < |t| then
      ReplaceFacts(t, key, row, i);
      t[i := row]
    else
      AppendFacts(t, key, row);
      t + [row]
  }

  /** The last row of the batch `rows` that holds key `k`. */
  function LastWith<R>(rows: seq<R>, key: R -> string, k: string): (r: Option<R>)
    ensures r.Some? <==> k in Keys(rows, key)
    ensures r.Some? ==> r.value in rows && key(r.value) == k
    decreases |rows|
  {
    if |rows| == 0 then None
    else
      var later := LastWith(rows[1..], key, k);
      KeysCons(rows, key);
      if later.Some? then later
      else if key(rows[0]) == k then Some(rows[0])
      else None
  }

  lemma KeysCons<R>(rows: seq<R>, key: R -> string)
    requires |rows| > 0
    ensures Keys(rows, key) == {key(rows[0])} + Keys(rows[1..], key)
  {
    var tail := rows[1..];
    forall x | x in Keys(rows, key) ensures x in {key(rows[0])} + Keys(tail, key) {
      var j :| 0 <= j < |rows| && key(rows[j]) == x;
      if j > 0 {
        assert key(tail[j - 1]) == x;
      }
    }
    forall x | x in Keys(tail, key) ensures x in Keys(rows, key) {
      var j :| 0 <= j < |tail| && key(tail[j]) == x;
      assert key(rows[j + 1]) == x;
    }
  }

  /**
   * A multi-row upsert: the rows are applied in order, so when two rows of the
   * batch share a key the later one is what remains.
   */
  function UpsertAll<R>(t: seq<R>, key: R -> string, rows: seq<R>): (r: seq<R>)
    ensures Keys(r, key) == Keys(t, key) + Keys(rows, key)
    ensures UniqueKeys(t, key) ==> UniqueKeys(r, key)
    decreases |rows|
  {
    if |rows| == 0 then t
    else
      KeysCons(rows, key);
      UpsertAll(Upsert(t, key, rows[0]), key, rows[1..])
  }

  /**
   * After a batch upsert each key of the batch holds the batch's last row for it,
   * and every other key holds what it held before.
   */
  lemma {:induction false} LookupAfterUpsertAll<R>(t: seq<R>, key: R -> string, rows: seq<R>, k: string)
    ensures Lookup(UpsertAll(t, key, rows), key, k)
         == (if LastWith(rows, key, k).Some? then LastWith(rows, key, k) else Lookup(t, key, k))
    decreases |rows|
  {
    if |rows| > 0 {
      LookupAfterUpsertAll(Upsert(t, key, rows[0]), key, rows[1..], k);
    }
  }

  /** Upserting only keys that already exist keeps the number of rows. */
  lemma {:induction false} UpsertExistingKeepsCount<R>(t: seq<R>, key: R -> string, rows: seq<R>)
    requires Keys(rows, key) <= Keys(t, key)
    ensures |UpsertAll(t, key, rows)| == |t|
    ensures Keys(UpsertAll(t, key, rows), key) == Keys(t, key)
    decreases |rows|
  {
    if |rows| > 0 {
      KeysCons(rows, key);
      var t1 := Upsert(t, key, rows[0]);
      UpsertExistingKeepsCount(t1, key, rows[1..]);
    }
  }

  /**
   * On a table with a unique key, a batch whose keys are all present rewrites rows
   * in place: each row whose key the batch mentions becomes the batch's last row for
   * that key, and every other row stays as it was.
   */
  lemma {:induction false} UpsertAllInPlace<R>(s: seq<R>, key: R -> string, rows: seq<R>)
    requires UniqueKeys(s, key) && Keys(rows, key) <= Keys(s, key)
    ensures |UpsertAll(s, key, rows)| == |s|
    ensures forall i :: 0 <= i < |s| ==>
      UpsertAll(s, key, rows)[i]
      == (if LastWith(rows, key, key(s[i])).Some? then LastWith(rows, key, key(s[i])).value else s[i])
    decreases |rows|
  {
    if |rows| > 0 {
      KeysCons(rows, key);
      var j := IndexOfKey(s, key, key(rows[0]));
      LookupFindsKeys(s, key, key(rows[0]));
      var s1 := Upsert(s, key, rows[0]);
      assert s1 == s[j := rows[0]];
      forall i | 0 <= i < |s| ensures key(s1[i]) == key(s[i]) { }
      UpsertAllInPlace(s1, key, rows[1..]);
      var u := UpsertAll(s, key, rows);
      forall i | 0 <= i < |s|
        ensures u[i] == (if LastWith(rows, key, key(s[i])).Some? then LastWith(rows, key, key(s[i])).value else s[i])
      {
        if i != j {
          assert key(s[i]) != key(rows[0]);
        }
      }
    }
  }

  /** Applying the same batch upsert twice leaves the table as applying it once. */
  lemma UpsertAllIdempotent<R>(t: seq<R>, key: R -> string, rows: seq<R>)
    requires UniqueKeys(t, key)
    ensures UpsertAll(UpsertAll(t, key, rows), key, rows) == UpsertAll(t, key, rows)
  {
    var u := UpsertAll(t, key, rows);
    UpsertAllInPlace(u, key, rows);
    var v := UpsertAll(u, key, rows);
    forall i | 0 <= i < |u| ensures v[i] == u[i] {
      var k := key(u[i]);
      LookupAfterUpsertAll(t, key, rows, k);
      if LastWith(rows, key, k).Some? {
        IndexOfKeyIs(u, key, k, i);
      }
    }
  }

  /** A one-row upsert is the batch upsert of that row alone. */
  lemma UpsertIsSingleBatch<R>(t: seq<R>, key: R -> string, row: R)
    ensures UpsertAll(t, key, [row]) == Upsert(t, key, row)
  {
    assert [row][1..] == [];
  }
}
