/**
 * The wizard keeps four lists keyed by file name or group id (metadata,
 * metadata validity, relevance, complexity) and updates each the same way:
 * replace the first entry with the reported id, or append a new one.
 */
module Registry {
  import opened Wrappers
  import opened Seqs

  /** `item => item.id === id` */
  function KeyIs<T>(key: T -> string, id: string): T -> bool {
    x => key(x) == id
  }

  /** `list.find(item => item.id === id)` */
  function Lookup<T>(s: seq<T>, key: T -> string, id: string): Option<T> {
    Find(s, KeyIs(key, id))
  }

  /** The ids present in a list. */
  function Keys<T>(s: seq<T>, key: T -> string): set<string> {
    set i | 0 <= i < |s| :: key(s[i])
  }

  /** No id occurs twice. */
  predicate UniqueKeys<T>(s: seq<T>, key: T -> string) {
    forall i, j :: 0 <= i < j < |s| ==> key(s[i]) != key(s[j])
  }

  /** `findIndex` on the id, then overwrite that entry or append. */
  function Upsert<T>(s: seq<T>, key: T -> string, e: T): seq<T> {
    var i := FindIndex(s, KeyIs(key, key(e)));
    if i >= 0 then s[i := e] else s + [e]
  }

  /** An upsert replaces the entry with the same id in place, or appends when there is none. */
  lemma UpsertReplacesOrAppends<T>(s: seq<T>, key: T -> string, e: T)
    ensures key(e) in Keys(s, key) ==>
      |Upsert(s, key, e)| == |s| &&
      exists i :: 0 <= i < |s| && key(s[i]) == key(e) && Upsert(s, key, e) == s[i := e]
    ensures key(e) !in Keys(s, key) ==> Upsert(s, key, e) == s + [e]
  {
    var i := FindIndex(s, KeyIs(key, key(e)));
    if key(e) in Keys(s, key) {
      var j :| 0 <= j < |s| && key(s[j]) == key(e);
      assert KeyIs(key, key(e))(s[j]);
    }
  }

  /** After an upsert, looking up the reported id finds the reported entry. */
  lemma UpsertThenLookup<T>(s: seq<T>, key: T -> string, e: T)
    ensures Lookup(Upsert(s, key, e), key, key(e)) == Some(e)
  {
    var r := Upsert(s, key, e);
    var i := FindIndex(s, KeyIs(key, key(e)));
    var k := FindIndex(r, KeyIs(key, key(e)));
    if i >= 0 {
      assert KeyIs(key, key(e))(r[i]);
      assert k == i;
    } else {
      assert KeyIs(key, key(e))(r[|s|]);
      assert k == |s|;
    }
  }

  /** An upsert leaves what every other id finds unchanged. */
  lemma UpsertKeepsOthers<T>(s: seq<T>, key: T -> string, e: T, id: string)
    requires id != key(e)
    ensures Lookup(Upsert(s, key, e), key, id) == Lookup(s, key, id)
  {
    var r := Upsert(s, key, e);
    var p := KeyIs(key, id);
    var i := FindIndex(s, KeyIs(key, key(e)));
    var a := FindIndex(s, p);
    var b := FindIndex(r, p);
    assert !p(e);
    if a >= 0 {
      assert a != i;
      assert p(r[a]);
      assert b == a;
    } else {
      forall j | 0 <= j < |r| ensures !p(r[j]) {
        if j < |s| && j != i {
          assert r[j] == s[j];
        }
      }
    }
  }

  /** Upserts never introduce a duplicate id, and the ids afterwards are the old ones plus the reported one. */
  lemma UpsertKeepsKeysUnique<T>(s: seq<T>, key: T -> string, e: T)
    requires UniqueKeys(s, key)
    ensures UniqueKeys(Upsert(s, key, e), key)
    ensures Keys(Upsert(s, key, e), key) == Keys(s, key) + {key(e)}
  {
    var r := Upsert(s, key, e);
    var i := FindIndex(s, KeyIs(key, key(e)));
    if i >= 0 {
      assert KeyIs(key, key(e))(s[i]);
      forall a, b | 0 <= a < b < |r| ensures key(r[a]) != key(r[b]) {
        if a == i {
          assert key(r[b]) == key(s[b]);
        } else if b == i {
          assert key(r[a]) == key(s[a]);
        } else {
          assert r[a] == s[a] && r[b] == s[b];
        }
      }
      assert Keys(r, key) == Keys(s, key) + {key(e)} by {
        forall x | x in Keys(s, key) + {key(e)} ensures x in Keys(r, key) {
          if x == key(e) {
            assert key(r[i]) == x;
          } else {
            var j :| 0 <= j < |s| && key(s[j]) == x;
            assert j != i && key(r[j]) == x;
          }
        }
        forall x | x in Keys(r, key) ensures x in Keys(s, key) + {key(e)} {
          var j :| 0 <= j < |r| && key(r[j]) == x;
          if j != i {
            assert key(s[j]) == x;
          }
        }
      }
    } else {
      forall a, b | 0 <= a < b < |r| ensures key(r[a]) != key(r[b]) {
        if b == |s| {
          assert !KeyIs(key, key(e))(s[a]);
        } else {
          assert r[a] == s[a] && r[b] == s[b];
        }
      }
      assert Keys(r, key) == Keys(s, key) + {key(e)} by {
        forall x | x in Keys(s, key) + {key(e)} ensures x in Keys(r, key) {
          if x == key(e) {
            assert key(r[|s|]) == x;
          } else {
            var j :| 0 <= j < |s| && key(s[j]) == x;
            assert key(r[j]) == x;
          }
        }
        forall x | x in Keys(r, key) ensures x in Keys(s, key) + {key(e)} {
          var j :| 0 <= j < |r| && key(r[j]) == x;
          if j < |s| {
            assert key(s[j]) == x;
          }
        }
      }
    }
  }

  /** A lookup finds something exactly when the id is present. */
  lemma LookupIffKey<T>(s: seq<T>, key: T -> string, id: string)
    ensures Lookup(s, key, id).Some? <==> id in Keys(s, key)
    ensures Lookup(s, key, id).Some? ==> key(Lookup(s, key, id).value) == id
  {
    if id in Keys(s, key) {
      var j :| 0 <= j < |s| && key(s[j]) == id;
      assert KeyIs(key, id)(s[j]);
    }
  }

  /** Dropping entries never introduces an id. */
  lemma FilterKeysSubset<T>(s: seq<T>, key: T -> string, p: T -> bool)
    ensures Keys(Filter(s, p), key) <= Keys(s, key)
  {
    var r := Filter(s, p);
    forall x | x in Keys(r, key) ensures x in Keys(s, key) {
      var i :| 0 <= i < |r| && key(r[i]) == x;
      var j :| 0 <= j < |s| && s[j] == r[i];
    }
  }

  lemma UniqueKeysUncons<T>(s: seq<T>, key: T -> string)
    requires s != [] && UniqueKeys(s, key)
    ensures UniqueKeys(s[1..], key) && key(s[0]) !in Keys(s[1..], key)
  {
    var tail := s[1..];
    forall i, j | 0 <= i < j < |tail| ensures key(tail[i]) != key(tail[j]) {
      assert tail[i] == s[i + 1] && tail[j] == s[j + 1];
    }
  }

  lemma UniqueKeysCons<T>(x: T, t: seq<T>, key: T -> string)
    requires UniqueKeys(t, key) && key(x) !in Keys(t, key)
    ensures UniqueKeys([x] + t, key)
  {
    var r := [x] + t;
    forall a, b | 0 <= a < b < |r| ensures key(r[a]) != key(r[b]) {
      if a == 0 {
        assert r[b] == t[b - 1];
      } else {
        assert r[a] == t[a - 1] && r[b] == t[b - 1];
      }
    }
  }

  /** Dropping entries never introduces a duplicate id. */
  lemma {:induction false} FilterKeepsUniqueKeys<T>(s: seq<T>, key: T -> string, p: T -> bool)
    requires UniqueKeys(s, key)
    ensures UniqueKeys(Filter(s, p), key)
  {
    if s != [] {
      UniqueKeysUncons(s, key);
      FilterKeepsUniqueKeys(s[1..], key, p);
      if p(s[0]) {
        FilterKeysSubset(s[1..], key, p);
        UniqueKeysCons(s[0], Filter(s[1..], p), key);
      }
    }
  }

  /** `filter(item => item.id !== id)`: that id is gone and every other id finds what it found before. */
  lemma {:induction false} RemoveKeyLookup<T>(s: seq<T>, key: T -> string, id: string, other: string)
    ensures Lookup(Filter(s, Not(KeyIs(key, id))), key, id).None?
    ensures other != id ==> Lookup(Filter(s, Not(KeyIs(key, id))), key, other) == Lookup(s, key, other)
  {
    if s != [] && other != id {
      var keep := Not(KeyIs(key, id));
      RemoveKeyLookup(s[1..], key, id, other);
      assert s == [s[0]] + s[1..];
      FindCons(s[0], s[1..], KeyIs(key, other));
      if keep(s[0]) {
        FindCons(s[0], Filter(s[1..], keep), KeyIs(key, other));
      }
    }
  }

  /** Appending an entry with a fresh id keeps ids unique. */
  lemma AppendFreshKey<T>(s: seq<T>, key: T -> string, e: T)
    requires UniqueKeys(s, key) && key(e) !in Keys(s, key)
    ensures UniqueKeys(s + [e], key)
  {
    var r := s + [e];
    forall a, b | 0 <= a < b < |r| ensures key(r[a]) != key(r[b]) {
      if b == |s| {
        assert key(r[a]) in Keys(s, key);
      } else {
        assert r[a] == s[a] && r[b] == s[b];
      }
    }
  }

  /** Filtering out the id of entry `k`, when ids are unique, removes exactly that entry. */
  lemma {:induction false} FilterRemovesUniqueKey<T>(s: seq<T>, key: T -> string, k: nat)
    requires UniqueKeys(s, key) && k < |s|
    ensures Filter(s, Not(KeyIs(key, key(s[k])))) == s[..k] + s[k + 1..]
    decreases |s|, 1
  {
    if k == 0 {
      FilterRemovesFirstKey(s, key);
      assert s[..0] + s[1..] == s[1..];
    } else {
      FilterRemovesLaterKey(s, key, k);
    }
  }

  lemma FilterRemovesFirstKey<T>(s: seq<T>, key: T -> string)
    requires UniqueKeys(s, key) && s != []
    ensures Filter(s, Not(KeyIs(key, key(s[0])))) == s[1..]
  {
    var p := Not(KeyIs(key, key(s[0])));
    UniqueKeysUncons(s, key);
    var tail := s[1..];
    forall i | 0 <= i < |tail| ensures p(tail[i]) {
      assert key(tail[i]) in Keys(tail, key);
    }
    FilterKeepsAll(tail, p);
    assert !p(s[0]);
  }

  lemma {:induction false} FilterRemovesLaterKey<T>(s: seq<T>, key: T -> string, k: nat)
    requires UniqueKeys(s, key) && 0 < k < |s|
    ensures Filter(s, Not(KeyIs(key, key(s[k])))) == s[..k] + s[k + 1..]
    decreases |s|, 0
  {
    var p := Not(KeyIs(key, key(s[k])));
    var tail := s[1..];
    assert UniqueKeys(tail, key) by {
      UniqueKeysUncons(s, key);
    }
    assert tail[k - 1] == s[k];
    FilterRemovesUniqueKey(tail, key, k - 1);
    assert p(s[0]) by {
      assert key(s[0]) != key(s[k]);
    }
    FilterKeepsHead(s, p);
    DropAt(s, k);
  }

  lemma FilterKeepsHead<T>(s: seq<T>, p: T -> bool)
    requires s != [] && p(s[0])
    ensures Filter(s, p) == [s[0]] + Filter(s[1..], p)
  {
  }

  lemma DropAt<T>(s: seq<T>, k: nat)
    requires 0 < k < |s|
    ensures s[..k] + s[k + 1..] == [s[0]] + (s[1..][..k - 1] + s[1..][k..])
  {
    assert s[..k] == [s[0]] + s[1..][..k - 1];
    assert s[k + 1..] == s[1..][k..];
  }
}
