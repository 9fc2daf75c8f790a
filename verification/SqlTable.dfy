/** A table with a text primary key, and the four statements the SQLite store uses on it. */
module SqlTables {
  import opened Types
  import opened StoreCalls

  datatype Row<C> = Row(key: string, cols: C)

  /** `SELECT … WHERE key = ?1` */
  function Find<C>(rows: seq<Row<C>>, key: string): Option<C> {
    if rows == [] then None
    else if rows[0].key == key then Some(rows[0].cols)
    else Find(rows[1..], key)
  }

  /** `INSERT … VALUES (?1, initial) ON CONFLICT(key) DO UPDATE SET merge` */
  function Upsert<C>(rows: seq<Row<C>>, key: string, initial: C, merge: C -> C): seq<Row<C>> {
    if rows == [] then [Row(key, initial)]
    else if rows[0].key == key then [Row(key, merge(rows[0].cols))] + rows[1..]
    else [rows[0]] + Upsert(rows[1..], key, initial, merge)
  }

  /** `DELETE … WHERE key = ?1` */
  function Delete<C>(rows: seq<Row<C>>, key: string): seq<Row<C>> {
    if rows == [] then []
    else if rows[0].key == key then Delete(rows[1..], key)
    else [rows[0]] + Delete(rows[1..], key)
  }

  /** `UPDATE … SET …`, where `change` also says which rows it leaves alone. */
  function UpdateAll<C>(rows: seq<Row<C>>, change: C -> C): seq<Row<C>> {
    seq(|rows|, i requires 0 <= i < |rows| => Row(rows[i].key, change(rows[i].cols)))
  }

  /** `SELECT … WHERE test` */
  function Where<C>(rows: seq<Row<C>>, test: C -> bool): seq<Row<C>> {
    if rows == [] then []
    else (if test(rows[0].cols) then [rows[0]] else []) + Where(rows[1..], test)
  }

  /** Convert every row; one bad row spoils the result. */
  function ReadAll<C, V>(rows: seq<Row<C>>, read: Row<C> -> Option<V>): Option<seq<V>> {
    if rows == [] then Some([])
    else
      match read(rows[0])
      case None => None
      case Some(v) =>
        match ReadAll(rows[1..], read)
        case None => None
        case Some(vs) => Some([v] + vs)
  }

  /** `query_row(…).optional()`: no row is a valid answer, a bad row is not. */
  function ReadOne<C, V>(rows: seq<Row<C>>, key: string, read: Row<C> -> Option<V>): Option<Option<V>> {
    match Find(rows, key)
    case None => Some(None)
    case Some(cols) => match read(Row(key, cols)) case None => None case Some(v) => Some(Some(v))
  }

  predicate HasKey<C>(rows: seq<Row<C>>, key: string) { Find(rows, key).Some? }

  predicate UniqueKeys<C>(rows: seq<Row<C>>) {
    rows == [] || (!HasKey(rows[1..], rows[0].key) && UniqueKeys(rows[1..]))
  }

  lemma {:induction false} FindUpsert<C>(rows: seq<Row<C>>, key: string, initial: C, merge: C -> C, k: string)
    ensures Find(Upsert(rows, key, initial, merge), k) ==
            if k != key then Find(rows, k)
            else if HasKey(rows, key) then Some(merge(Find(rows, key).value)) else Some(initial)
    ensures UniqueKeys(rows) ==> UniqueKeys(Upsert(rows, key, initial, merge))
  {
    if rows != [] && rows[0].key != key {
      FindUpsert(rows[1..], key, initial, merge, k);
      FindUpsert(rows[1..], key, initial, merge, rows[0].key);
    }
  }

  lemma {:induction false} FindDelete<C>(rows: seq<Row<C>>, key: string, k: string)
    ensures Find(Delete(rows, key), k) == if k == key then None else Find(rows, k)
    ensures UniqueKeys(rows) ==> UniqueKeys(Delete(rows, key))
  {
    if rows != [] {
      FindDelete(rows[1..], key, k);
      FindDelete(rows[1..], key, rows[0].key);
    }
  }

  lemma {:induction false} FindUpdate<C>(rows: seq<Row<C>>, change: C -> C, k: string)
    ensures Find(UpdateAll(rows, change), k) ==
            match Find(rows, k) case Some(c) => Some(change(c)) case None => None
    ensures UniqueKeys(rows) ==> UniqueKeys(UpdateAll(rows, change))
  {
    if rows != [] {
      assert UpdateAll(rows, change)[1..] == UpdateAll(rows[1..], change);
      FindUpdate(rows[1..], change, k);
      FindUpdate(rows[1..], change, rows[0].key);
    }
  }

  lemma {:induction false} FindWhere<C>(rows: seq<Row<C>>, test: C -> bool, k: string)
    requires UniqueKeys(rows)
    ensures UniqueKeys(Where(rows, test))
    ensures Find(Where(rows, test), k) ==
            if HasKey(rows, k) && test(Find(rows, k).value) then Find(rows, k) else None
  {
    if rows != [] {
      FindWhere(rows[1..], test, k);
      FindWhere(rows[1..], test, rows[0].key);
      var rest := Where(rows[1..], test);
      assert [] + rest == rest && ([rows[0]] + rest)[1..] == rest;
    }
  }

  lemma {:induction false} AllRead<C, V>(rows: seq<Row<C>>, read: Row<C> -> Option<V>, vs: seq<V>)
    requires |vs| == |rows| && forall i | 0 <= i < |rows| :: read(rows[i]) == Some(vs[i])
    ensures ReadAll(rows, read) == Some(vs)
  {
    if rows != [] {
      AllRead(rows[1..], read, vs[1..]);
      assert vs == [vs[0]] + vs[1..];
    }
  }

  lemma {:induction false} UpsertAbsent<C>(rows: seq<Row<C>>, key: string, initial: C, merge: C -> C)
    requires !HasKey(rows, key)
    ensures Upsert(rows, key, initial, merge) == rows + [Row(key, initial)]
  {
    if rows != [] { UpsertAbsent(rows[1..], key, initial, merge); }
  }

  lemma {:induction false} FindIndex<C>(rows: seq<Row<C>>, key: string) returns (i: nat)
    requires HasKey(rows, key)
    ensures i < |rows| && rows[i].key == key && Find(rows, key) == Some(rows[i].cols)
  {
    if rows[0].key == key {
      i := 0;
    } else {
      i := FindIndex(rows[1..], key);
      i := i + 1;
    }
  }

  lemma {:induction false} FindAt<C>(rows: seq<Row<C>>, i: nat)
    requires UniqueKeys(rows) && i < |rows|
    ensures Find(rows, rows[i].key) == Some(rows[i].cols)
    ensures forall j | 0 <= j < |rows| && j != i :: rows[j].key != rows[i].key
  {
    if i > 0 {
      FindAt(rows[1..], i - 1);
      assert rows[1..][i - 1] == rows[i];
      forall j | 0 <= j < |rows| && j != i ensures rows[j].key != rows[i].key {
        if j > 0 { assert rows[1..][j - 1] == rows[j]; }
      }
    } else {
      forall j | 0 < j < |rows| ensures rows[j].key != rows[0].key {
        FindAt(rows[1..], j - 1);
        assert rows[1..][j - 1] == rows[j];
      }
    }
  }

  // ---- Tables that stand for maps ----

  ghost predicate Injective<K(!new)>(keyText: K -> string) {
    forall j, k :: keyText(j) == keyText(k) ==> j == k
  }

  /** The rows are the entries of the map, written out by `keyText` and `cols`. */
  ghost predicate Holds<K(!new), V, C>(rows: seq<Row<C>>, m: map<K, V>, keyText: K -> string, cols: V -> C) {
    && UniqueKeys(rows)
    && (forall k :: Find(rows, keyText(k)) == if k in m then Some(cols(m[k])) else None)
    && (forall i | 0 <= i < |rows| :: exists k <- m :: keyText(k) == rows[i].key)
  }

  /** What identifies a row comes from a key of the map. */
  lemma KeysKnown<K(!new), V, C>(rows: seq<Row<C>>, m: map<K, V>, keyText: K -> string, cols: V -> C, key: string)
    requires Holds(rows, m, keyText, cols) && HasKey(rows, key)
    ensures exists k <- m :: keyText(k) == key
  {
    var i := FindIndex(rows, key);
  }

  lemma HoldsFrom<K(!new), V, C>(rows: seq<Row<C>>, m: map<K, V>, keyText: K -> string, cols: V -> C)
    requires UniqueKeys(rows)
    requires forall k :: Find(rows, keyText(k)) == if k in m then Some(cols(m[k])) else None
    requires forall key | HasKey(rows, key) :: exists k <- m :: keyText(k) == key
    ensures Holds(rows, m, keyText, cols)
  {
    forall i | 0 <= i < |rows| ensures exists k <- m :: keyText(k) == rows[i].key {
      FindAt(rows, i);
      assert HasKey(rows, rows[i].key);
    }
  }

  lemma HoldsUpsert<K(!new), V, C>(rows: seq<Row<C>>, m: map<K, V>, keyText: K -> string, cols: V -> C,
                                   key: K, v: V, initial: C, merge: C -> C)
    requires Holds(rows, m, keyText, cols) && Injective(keyText)
    requires if key in m then merge(cols(m[key])) == cols(v) else initial == cols(v)
    ensures Holds(Upsert(rows, keyText(key), initial, merge), m[key := v], keyText, cols)
  {
    var after, n := Upsert(rows, keyText(key), initial, merge), m[key := v];
    FindUpsert(rows, keyText(key), initial, merge, keyText(key));
    forall k ensures Find(after, keyText(k)) == if k in n then Some(cols(n[k])) else None {
      FindUpsert(rows, keyText(key), initial, merge, keyText(k));
    }
    forall t | HasKey(after, t) ensures exists k <- n :: keyText(k) == t {
      FindUpsert(rows, keyText(key), initial, merge, t);
      if t == keyText(key) {
        assert key in n;
      } else {
        KeysKnown(rows, m, keyText, cols, t);
        var k :| k in m && keyText(k) == t;
        assert k in n;
      }
    }
    HoldsFrom(after, n, keyText, cols);
  }

  lemma HoldsDelete<K(!new), V, C>(rows: seq<Row<C>>, m: map<K, V>, keyText: K -> string, cols: V -> C, key: K)
    requires Holds(rows, m, keyText, cols) && Injective(keyText)
    ensures Holds(Delete(rows, keyText(key)), m - {key}, keyText, cols)
  {
    var after, n := Delete(rows, keyText(key)), m - {key};
    FindDelete(rows, keyText(key), keyText(key));
    forall k ensures Find(after, keyText(k)) == if k in n then Some(cols(n[k])) else None {
      FindDelete(rows, keyText(key), keyText(k));
    }
    forall t | HasKey(after, t) ensures exists k <- n :: keyText(k) == t {
      FindDelete(rows, keyText(key), t);
      KeysKnown(rows, m, keyText, cols, t);
      var k :| k in m && keyText(k) == t;
      assert k in n;
    }
    HoldsFrom(after, n, keyText, cols);
  }

  lemma HoldsUpdate<K(!new), V, C>(rows: seq<Row<C>>, m: map<K, V>, n: map<K, V>,
                                   keyText: K -> string, cols: V -> C, change: C -> C)
    requires Holds(rows, m, keyText, cols)
    requires n.Keys == m.Keys && forall k <- m :: change(cols(m[k])) == cols(n[k])
    ensures Holds(UpdateAll(rows, change), n, keyText, cols)
  {
    var after := UpdateAll(rows, change);
    forall k ensures Find(after, keyText(k)) == if k in n then Some(cols(n[k])) else None {
      FindUpdate(rows, change, keyText(k));
    }
    FindUpdate(rows, change, "");
    forall t | HasKey(after, t) ensures exists k <- n :: keyText(k) == t {
      FindUpdate(rows, change, t);
      KeysKnown(rows, m, keyText, cols, t);
      var k :| k in m && keyText(k) == t;
      assert k in n;
    }
    HoldsFrom(after, n, keyText, cols);
  }

  lemma HoldsWhere<K(!new), V, C>(rows: seq<Row<C>>, m: map<K, V>, n: map<K, V>,
                                  keyText: K -> string, cols: V -> C, test: C -> bool)
    requires Holds(rows, m, keyText, cols) && Injective(keyText)
    requires forall k <- n :: k in m && n[k] == m[k]
    requires forall k <- m :: k in n <==> test(cols(m[k]))
    ensures Holds(Where(rows, test), n, keyText, cols)
  {
    var after := Where(rows, test);
    FindWhere(rows, test, "");
    forall k ensures Find(after, keyText(k)) == if k in n then Some(cols(n[k])) else None {
      FindWhere(rows, test, keyText(k));
    }
    forall t | HasKey(after, t) ensures exists k <- n :: keyText(k) == t {
      FindWhere(rows, test, t);
      KeysKnown(rows, m, keyText, cols, t);
      var k :| k in m && keyText(k) == t;
      assert k in n;
    }
    HoldsFrom(after, n, keyText, cols);
  }

  /** Reading by key gives what the map has under the key. */
  lemma ReadsLookup<K(!new), V, C>(rows: seq<Row<C>>, m: map<K, V>, keyText: K -> string, cols: V -> C,
                                   read: Row<C> -> Option<V>, k: K)
    requires Holds(rows, m, keyText, cols)
    requires k in m ==> read(Row(keyText(k), cols(m[k]))) == Some(m[k])
    ensures ReadOne(rows, keyText(k), read) == Some(Lookup(m, k))
  {
  }

  /** Reading every row of a table gives the values of its map. */
  lemma ReadsValues<K(!new), V(!new), C>(rows: seq<Row<C>>, m: map<K, V>, keyText: K -> string, cols: V -> C,
                                         read: Row<C> -> Option<V>)
    requires Holds(rows, m, keyText, cols) && Injective(keyText)
    requires forall k <- m :: read(Row(keyText(k), cols(m[k]))) == Some(m[k])
    ensures ReadAll(rows, read).Some? && ListsValues(ReadAll(rows, read).value, m)
  {
    hide Holds, Injective;
    var ks := HoldsEnumerates(rows, m, keyText, cols);
    var vs := seq(|ks|, i requires 0 <= i < |ks| && ks[i] in m => m[ks[i]]);
    AllRead(rows, read, vs);
    EnumerationLists(ks, vs, m);
  }

  /** The rows in their order name every key of the map once. */
  lemma HoldsEnumerates<K(!new), V, C>(rows: seq<Row<C>>, m: map<K, V>, keyText: K -> string, cols: V -> C)
    returns (ks: seq<K>)
    requires Holds(rows, m, keyText, cols) && Injective(keyText)
    ensures |ks| == |rows| && Enumerates(ks, m.Keys)
    ensures forall i | 0 <= i < |ks| :: ks[i] in m && rows[i] == Row(keyText(ks[i]), cols(m[ks[i]]))
  {
    ks := [];
    for i := 0 to |rows|
      invariant |ks| == i
      invariant forall j | 0 <= j < i :: ks[j] in m && keyText(ks[j]) == rows[j].key
    {
      var k :| k in m && keyText(k) == rows[i].key;
      ks := ks + [k];
    }
    hide Holds;
    forall i | 0 <= i < |ks|
      ensures rows[i].cols == cols(m[ks[i]]) && forall j | i < j < |ks| :: ks[i] != ks[j]
    {
      RowOf(rows, m, keyText, cols, ks[i], i);
    }
    forall k <- m ensures k in ks {
      RowExists(rows, m, keyText, cols, k);
      var i :| 0 <= i < |rows| && rows[i].key == keyText(k);
      assert keyText(ks[i]) == keyText(k);
    }
  }

  lemma RowOf<K(!new), V, C>(rows: seq<Row<C>>, m: map<K, V>, keyText: K -> string, cols: V -> C, k: K, i: nat)
    requires Holds(rows, m, keyText, cols) && i < |rows| && k in m && keyText(k) == rows[i].key
    ensures rows[i].cols == cols(m[k]) && forall j | 0 <= j < |rows| && j != i :: rows[j].key != rows[i].key
  {
    FindAt(rows, i);
  }

  lemma RowExists<K(!new), V, C>(rows: seq<Row<C>>, m: map<K, V>, keyText: K -> string, cols: V -> C, k: K)
    requires Holds(rows, m, keyText, cols) && k in m
    ensures exists i :: 0 <= i < |rows| && rows[i].key == keyText(k)
  {
    var i := FindIndex(rows, keyText(k));
  }
}
