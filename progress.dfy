/** Progression bookkeeping used by both cooking implementations: the per-recipe best-star
    record (a JavaScript object, kept in insertion order), the unlock pass that walks a
    threshold table, and the newest-first album capped at 50 entries. */
module Progress {
  import opened Common

  /** One own property of the `recipeStars` object. */
  datatype Entry = Entry(key: string, value: int)

  /** A JavaScript object used as a dictionary; `Object.values` visits it in this order. */
  type StarTable = seq<Entry>

  predicate HasKey(t: StarTable, k: string) {
    exists i :: 0 <= i < |t| && t[i].key == k
  }

  /** Property names of a JavaScript object are distinct. */
  predicate DistinctKeys(t: StarTable) {
    forall i, j :: 0 <= i < j < |t| ==> t[i].key != t[j].key
  }

  /** `table[k] || 0`: the stored value, or 0 for a key with no record. */
  function Lookup(t: StarTable, k: string): (v: int)
    ensures !HasKey(t, k) ==> v == 0
    ensures DistinctKeys(t) ==> forall i :: 0 <= i < |t| && t[i].key == k ==> v == t[i].value
  {
    if t == [] then 0
    else if t[0].key == k then t[0].value
    else
      assert forall i :: 0 < i < |t| && t[i].key == k ==> t[1..][i - 1].key == k;
      Lookup(t[1..], k)
  }

  /** `table[k] = v`: an existing property keeps its place, a new one goes last. */
  function Store(t: StarTable, k: string, v: int): (r: StarTable)
    ensures HasKey(r, k)
  {
    if t == [] then
      assert [Entry(k, v)][0].key == k;
      [Entry(k, v)]
    else if t[0].key == k then
      assert ([Entry(k, v)] + t[1..])[0].key == k;
      [Entry(k, v)] + t[1..]
    else
      var rest := Store(t[1..], k, v);
      assert forall i :: 0 <= i < |rest| ==> ([t[0]] + rest)[i + 1] == rest[i];
      [t[0]] + rest
  }

  /** `Object.values(table).reduce((sum, s) => sum + s, 0)`. */
  function Total(t: StarTable): int {
    if t == [] then 0 else t[0].value + Total(t[1..])
  }

  lemma HasKeyCons(e: Entry, t: StarTable, j: string)
    ensures HasKey([e] + t, j) <==> e.key == j || HasKey(t, j)
  {
    var c := [e] + t;
    assert c[0] == e;
    if HasKey(t, j) {
      var i :| 0 <= i < |t| && t[i].key == j;
      assert c[i + 1].key == j;
    }
    if HasKey(c, j) && e.key != j {
      var i :| 0 <= i < |c| && c[i].key == j;
      assert t[i - 1].key == j;
    }
  }

  /** After `table[k] = v` the keys are the old keys plus k. */
  lemma {:induction false} StoreKeys(t: StarTable, k: string, v: int, j: string)
    ensures HasKey(Store(t, k, v), j) <==> HasKey(t, j) || j == k
  {
    if t == [] {
      HasKeyCons(Entry(k, v), [], j);
    } else {
      assert t == [t[0]] + t[1..];
      HasKeyCons(t[0], t[1..], j);
      if t[0].key == k {
        HasKeyCons(Entry(k, v), t[1..], j);
      } else {
        StoreKeys(t[1..], k, v, j);
        HasKeyCons(t[0], Store(t[1..], k, v), j);
      }
    }
  }

  /** Writing a key keeps the keys distinct. */
  lemma {:induction false} StoreDistinct(t: StarTable, k: string, v: int)
    requires DistinctKeys(t)
    ensures DistinctKeys(Store(t, k, v))
  {
    if t != [] && t[0].key != k {
      assert DistinctKeys(t[1..]);
      StoreDistinct(t[1..], k, v);
      var rest := Store(t[1..], k, v);
      forall i | 0 <= i < |rest| ensures rest[i].key != t[0].key {
        assert HasKey(rest, rest[i].key);
        StoreKeys(t[1..], k, v, rest[i].key);
        if rest[i].key != k {
          var m :| 0 <= m < |t[1..]| && t[1..][m].key == rest[i].key;
          assert t[m + 1].key == rest[i].key;
        }
      }
    }
  }

  /** After `table[k] = v`, key k reads v and every other key reads what it read before. */
  lemma {:induction false} StoreLookup(t: StarTable, k: string, v: int, j: string)
    ensures Lookup(Store(t, k, v), j) == if j == k then v else Lookup(t, j)
  {
    if t != [] && t[0].key != k {
      StoreLookup(t[1..], k, v, j);
    }
  }

  /** After `table[k] = v` the sum of the values changes by exactly v minus the old value of k. */
  lemma {:induction false} StoreTotal(t: StarTable, k: string, v: int)
    requires DistinctKeys(t)
    ensures Total(Store(t, k, v)) == Total(t) - Lookup(t, k) + v
  {
    if t == [] {
    } else if t[0].key == k {
      assert [Entry(k, v)] + t[1..] == Store(t, k, v);
    } else {
      assert DistinctKeys(t[1..]);
      StoreTotal(t[1..], k, v);
    }
  }

  /** `if (stars > (table[k] || 0)) table[k] = stars`: the record only ever improves. */
  function RecordBest(t: StarTable, k: string, stars: int): (r: StarTable)
    ensures HasKey(r, k) <==> HasKey(t, k) || stars > 0
  {
    if stars > Lookup(t, k) then
      assert HasKey(Store(t, k, stars), k);
      Store(t, k, stars)
    else
      assert !HasKey(t, k) ==> stars <= 0;
      t
  }

  /** After recording, key k holds the larger of its old value and the new stars, and
      every other key is unchanged. */
  lemma RecordBestLookup(t: StarTable, k: string, stars: int, j: string)
    ensures Lookup(RecordBest(t, k, stars), j) == if j == k then Max(Lookup(t, k), stars) else Lookup(t, j)
  {
    if stars > Lookup(t, k) {
      StoreLookup(t, k, stars, j);
    }
  }

  /** Recording keeps the keys distinct and the values star counts, and the total moves by
      the improvement alone. */
  lemma RecordBestInvariants(t: StarTable, k: string, stars: int)
    requires DistinctKeys(t)
    ensures DistinctKeys(RecordBest(t, k, stars))
    ensures Total(RecordBest(t, k, stars)) == Total(t) + Max(0, stars - Lookup(t, k))
    ensures StarValues(t) && 0 <= stars <= 3 ==> StarValues(RecordBest(t, k, stars))
  {
    if stars > Lookup(t, k) {
      StoreDistinct(t, k, stars);
      StoreTotal(t, k, stars);
      if StarValues(t) && 0 <= stars <= 3 {
        StoreStarValues(t, k, stars);
      }
    }
  }

  /** Every value of the table is a star count of 0..3, hence the total is non-negative. */
  predicate StarValues(t: StarTable) {
    forall i :: 0 <= i < |t| ==> 0 <= t[i].value <= 3
  }

  lemma {:induction false} TotalBounds(t: StarTable)
    requires StarValues(t)
    ensures 0 <= Total(t) <= 3 * |t|
  {
    if t != [] {
      assert StarValues(t[1..]);
      TotalBounds(t[1..]);
    }
  }

  lemma {:induction false} StoreStarValues(t: StarTable, k: string, v: int)
    requires StarValues(t) && 0 <= v <= 3
    ensures StarValues(Store(t, k, v))
  {
    if t != [] && t[0].key != k {
      assert StarValues(t[1..]);
      StoreStarValues(t[1..], k, v);
    }
  }

  // ---------------------------------------------------------------------------------
  // Unlocking

  /** One row of an unlock table: the recipe id and the star total it needs. */
  datatype Threshold = Threshold(id: string, required: int)

  /** `Object.entries(table).forEach(([id, required]) => { if (total >= required &&
      !unlocked.includes(id)) unlocked.push(id) })`: the test sees the list as grown so far. */
  function Unlock(unlocked: seq<string>, table: seq<Threshold>, total: int): seq<string>
    decreases |table|
  {
    if table == [] then unlocked
    else
      var next := if total >= table[0].required && table[0].id !in unlocked
                  then unlocked + [table[0].id] else unlocked;
      Unlock(next, table[1..], total)
  }

  predicate Qualifies(table: seq<Threshold>, total: int, id: string) {
    exists i :: 0 <= i < |table| && table[i].id == id && table[i].required <= total
  }

  predicate NoDuplicates(s: seq<string>) {
    forall i, j :: 0 <= i < j < |s| ==> s[i] != s[j]
  }

  /** Unlocking never removes or reorders an entry: the old list is a prefix of the new one. */
  lemma {:induction false} UnlockKeepsPrefix(unlocked: seq<string>, table: seq<Threshold>, total: int)
    ensures |unlocked| <= |Unlock(unlocked, table, total)|
    ensures Unlock(unlocked, table, total)[..|unlocked|] == unlocked
    decreases |table|
  {
    if table != [] {
      var next := if total >= table[0].required && table[0].id !in unlocked
                  then unlocked + [table[0].id] else unlocked;
      UnlockKeepsPrefix(next, table[1..], total);
      assert next[..|unlocked|] == unlocked;
    }
  }

  /** After unlocking, an id is present exactly when it was present before or its
      threshold is at most the total. */
  lemma {:induction false} UnlockMembers(unlocked: seq<string>, table: seq<Threshold>, total: int, id: string)
    ensures id in Unlock(unlocked, table, total) <==> id in unlocked || Qualifies(table, total, id)
    decreases |table|
  {
    if table != [] {
      var next := if total >= table[0].required && table[0].id !in unlocked
                  then unlocked + [table[0].id] else unlocked;
      UnlockMembers(next, table[1..], total, id);
      if Qualifies(table[1..], total, id) {
        var i :| 0 <= i < |table[1..]| && table[1..][i].id == id && table[1..][i].required <= total;
        assert table[i + 1].id == id;
      }
      if Qualifies(table, total, id) && !Qualifies(table[1..], total, id) {
        var i :| 0 <= i < |table| && table[i].id == id && table[i].required <= total;
        if i > 0 {
          assert table[1..][i - 1].id == id;
        }
      }
    }
  }

  /** Unlocking never adds a duplicate. */
  lemma {:induction false} UnlockNoDuplicates(unlocked: seq<string>, table: seq<Threshold>, total: int)
    requires NoDuplicates(unlocked)
    ensures NoDuplicates(Unlock(unlocked, table, total))
    decreases |table|
  {
    if table != [] {
      var next := if total >= table[0].required && table[0].id !in unlocked
                  then unlocked + [table[0].id] else unlocked;
      UnlockNoDuplicates(next, table[1..], total);
    }
  }

  /** A second unlock pass with the same total changes nothing. */
  lemma {:induction false} UnlockIdempotent(unlocked: seq<string>, table: seq<Threshold>, total: int)
    ensures Unlock(Unlock(unlocked, table, total), table, total) == Unlock(unlocked, table, total)
  {
    var once := Unlock(unlocked, table, total);
    forall i | 0 <= i < |table| && table[i].required <= total ensures table[i].id in once {
      UnlockMembers(unlocked, table, total, table[i].id);
    }
    AlreadyUnlocked(once, table, total);
  }

  lemma {:induction false} AlreadyUnlocked(unlocked: seq<string>, table: seq<Threshold>, total: int)
    requires forall i :: 0 <= i < |table| && table[i].required <= total ==> table[i].id in unlocked
    ensures Unlock(unlocked, table, total) == unlocked
    decreases |table|
  {
    if table != [] {
      assert total >= table[0].required ==> table[0].id in unlocked;
      forall i | 0 <= i < |table[1..]| && table[1..][i].required <= total
        ensures table[1..][i].id in unlocked
      {
        assert table[1..][i] == table[i + 1];
      }
      AlreadyUnlocked(unlocked, table[1..], total);
    }
  }

  /** More stars never unlock less. */
  lemma UnlockMonotone(unlocked: seq<string>, table: seq<Threshold>, total: int, more: int, id: string)
    requires total <= more
    requires id in Unlock(unlocked, table, total)
    ensures id in Unlock(unlocked, table, more)
  {
    UnlockMembers(unlocked, table, total, id);
    UnlockMembers(unlocked, table, more, id);
  }

  // ---------------------------------------------------------------------------------
  // Album

  const AlbumCap := 50

  /** `album.unshift(item); if (album.length > 50) album = album.slice(0, 50)`. */
  function AddNewest<T>(item: T, album: seq<T>): (r: seq<T>)
    ensures |r| == Min(|album| + 1, AlbumCap)
    ensures r[0] == item
    ensures r[1..] == album[..|r| - 1]
  {
    var grown := [item] + album;
    if |grown| > AlbumCap then grown[..AlbumCap] else grown
  }
}
