/** The generic in-memory repository (`InMemoryRepository`): a dictionary
    from identifier to entity. Python dictionaries remember insertion order,
    overwrite in place and drop an entry on `del`, so the storage is a
    sequence of entries with pairwise distinct keys; `GetAll` lists the
    values in that order. The caller passes the key, which replaces the
    source's runtime check that the entity has an `id` attribute. */
module Repository {
  import opened Base
  import Seqs

  datatype Entry<K, V> = Entry(key: K, value: V)

  datatype Repo<K, V> = Repo(entries: seq<Entry<K, V>>)

  /** No key is stored twice: the dictionary invariant. */
  ghost predicate Valid<K, V>(r: Repo<K, V>) {
    forall i, j :: 0 <= i < j < |r.entries| ==> r.entries[i].key != r.entries[j].key
  }

  function Empty<K, V>(): (r: Repo<K, V>)
    ensures Valid(r) && Count(r) == 0
  {
    Repo([])
  }

  /** The position of `k` in the storage, if it is stored. */
  function Find<K(==), V>(es: seq<Entry<K, V>>, k: K): (r: Option<nat>)
    ensures r.Some? ==> r.value < |es| && es[r.value].key == k
    ensures r.None? <==> forall i :: 0 <= i < |es| ==> es[i].key != k
  {
    if |es| == 0 then None
    else if es[0].key == k then Some(0)
    else match Find(es[1..], k)
      case None => None
      case Some(i) => Some(i + 1)
  }

  function Keys<K, V>(r: Repo<K, V>): (ks: seq<K>)
    ensures |ks| == |r.entries|
    ensures forall i :: 0 <= i < |ks| ==> ks[i] == r.entries[i].key
  {
    seq(|r.entries|, i requires 0 <= i < |r.entries| => r.entries[i].key)
  }

  /** `get_all`: the stored values in insertion order. */
  function GetAll<K, V>(r: Repo<K, V>): (vs: seq<V>)
    ensures |vs| == |r.entries|
    ensures forall i :: 0 <= i < |vs| ==> vs[i] == r.entries[i].value
  {
    seq(|r.entries|, i requires 0 <= i < |r.entries| => r.entries[i].value)
  }

  /** `get`: the entity stored under `k`, or `None`. */
  function Get<K(==), V>(r: Repo<K, V>, k: K): (v: Option<V>)
    ensures v.Some? <==> exists i :: 0 <= i < |r.entries| && r.entries[i].key == k
    ensures v.Some? ==> v.value in GetAll(r)
    ensures Valid(r) ==> forall i :: 0 <= i < |r.entries| && r.entries[i].key == k ==> v == Some(r.entries[i].value)
  {
    match Find(r.entries, k)
    case None => None
    case Some(i) =>
      assert GetAll(r)[i] == r.entries[i].value;
      Some(r.entries[i].value)
  }

  /** `exists`. */
  function Exists<K(==), V>(r: Repo<K, V>, k: K): (b: bool)
    ensures b <==> Get(r, k).Some?
  {
    Find(r.entries, k).Some?
  }

  /** `count`: the number of stored entities. */
  function Count<K, V>(r: Repo<K, V>): nat {
    |r.entries|
  }

  /** `save`: stores `v` under `k`, overwriting in place an entity already
      stored there; a new key goes to the end. */
  function Save<K(==,!new), V>(r: Repo<K, V>, k: K, v: V): (r': Repo<K, V>)
    requires Valid(r)
    ensures Valid(r')
    ensures Get(r', k) == Some(v)
    ensures forall k' :: k' != k ==> Get(r', k') == Get(r, k')
    ensures Count(r') == if Exists(r, k) then Count(r) else Count(r) + 1
  {
    match Find(r.entries, k)
    case Some(i) =>
      var r' := Repo(r.entries[i := Entry(k, v)]);
      assert Valid(r');
      assert r'.entries[i] == Entry(k, v);
      assert forall k' :: k' != k ==> Get(r', k') == Get(r, k') by {
        forall k' | k' != k ensures Get(r', k') == Get(r, k') {
          if Get(r, k').Some? {
            var j :| 0 <= j < |r.entries| && r.entries[j].key == k';
            assert r'.entries[j] == r.entries[j];
          }
        }
      }
      r'
    case None =>
      var r' := Repo(r.entries + [Entry(k, v)]);
      assert r'.entries[|r.entries|] == Entry(k, v);
      assert Valid(r');
      assert forall k' :: k' != k ==> Get(r', k') == Get(r, k') by {
        forall k' | k' != k ensures Get(r', k') == Get(r, k') {
          if Get(r, k').Some? {
            var j :| 0 <= j < |r.entries| && r.entries[j].key == k';
            assert r'.entries[j] == r.entries[j];
          }
        }
      }
      r'
  }

  /** Where `save` puts the entry: in place of the stored one, or at the end. */
  lemma SaveShape<K(!new), V>(r: Repo<K, V>, k: K, v: V)
    requires Valid(r)
    ensures Find(r.entries, k).Some? ==> Save(r, k, v).entries == r.entries[Find(r.entries, k).value := Entry(k, v)]
    ensures Find(r.entries, k).None? ==> Save(r, k, v).entries == r.entries + [Entry(k, v)]
  {
  }

  /** `delete`: removes the entity stored under `k`; the flag says whether
      there was one. */
  function Delete<K(==,!new), V>(r: Repo<K, V>, k: K): (res: (Repo<K, V>, bool))
    requires Valid(r)
    ensures Valid(res.0)
    ensures res.1 <==> Exists(r, k)
    ensures !Exists(res.0, k)
    ensures forall k' :: k' != k ==> Get(res.0, k') == Get(r, k')
    ensures Count(res.0) == if res.1 then Count(r) - 1 else Count(r)
  {
    match Find(r.entries, k)
    case None => (r, false)
    case Some(i) =>
      RemoveAtFrame(r, i);
      (Repo(r.entries[..i] + r.entries[i + 1..]), true)
  }

  /** Deleting keeps the order of what remains, as `del` on a dict does: the
      entry of the key is cut out and `get_all` lists the other values in
      their old order; deleting a missing key changes nothing. */
  lemma DeleteShape<K(!new), V>(r: Repo<K, V>, k: K)
    requires Valid(r)
    ensures Find(r.entries, k).None? ==> Delete(r, k).0 == r
    ensures Find(r.entries, k).Some? ==> var i := Find(r.entries, k).value;
      && Delete(r, k).0.entries == r.entries[..i] + r.entries[i + 1..]
      && GetAll(Delete(r, k).0) == GetAll(r)[..i] + GetAll(r)[i + 1..]
  {
    if Find(r.entries, k).Some? {
      var i := Find(r.entries, k).value;
      var vs := GetAll(r);
      var ws := GetAll(Delete(r, k).0);
      assert |ws| == |vs[..i] + vs[i + 1..]|;
      forall j | 0 <= j < |ws| ensures ws[j] == (vs[..i] + vs[i + 1..])[j] {
        if j < i { assert ws[j] == r.entries[j].value; }
        else { assert ws[j] == r.entries[j + 1].value; }
      }
    }
  }

  /** Removing the entry at position `i` forgets its key and nothing else. */
  lemma RemoveAtFrame<K, V>(r: Repo<K, V>, i: nat)
    requires Valid(r) && i < |r.entries|
    ensures Valid(Repo(r.entries[..i] + r.entries[i + 1..]))
    ensures !Exists(Repo(r.entries[..i] + r.entries[i + 1..]), r.entries[i].key)
    ensures forall k' :: k' != r.entries[i].key ==>
      Get(Repo(r.entries[..i] + r.entries[i + 1..]), k') == Get(r, k')
  {
    var r' := Repo(r.entries[..i] + r.entries[i + 1..]);
    RemoveAtShift(r, i);
    forall k' | k' != r.entries[i].key ensures Get(r', k') == Get(r, k') {
      RemoveAtOther(r, i, k');
    }
  }

  lemma RemoveAtShift<K, V>(r: Repo<K, V>, i: nat)
    requires Valid(r) && i < |r.entries|
    ensures Valid(Repo(r.entries[..i] + r.entries[i + 1..]))
    ensures forall e :: e in r.entries[..i] + r.entries[i + 1..] ==> e.key != r.entries[i].key
  {
    var es := r.entries[..i] + r.entries[i + 1..];
    assert forall j :: 0 <= j < i ==> es[j] == r.entries[j];
    assert forall j :: i <= j < |es| ==> es[j] == r.entries[j + 1];
  }

  lemma RemoveAtOther<K, V>(r: Repo<K, V>, i: nat, k': K)
    requires Valid(r) && i < |r.entries| && k' != r.entries[i].key
    ensures Get(Repo(r.entries[..i] + r.entries[i + 1..]), k') == Get(r, k')
  {
    var r' := Repo(r.entries[..i] + r.entries[i + 1..]);
    RemoveAtShift(r, i);
    assert forall j :: 0 <= j < i ==> r'.entries[j] == r.entries[j];
    assert forall j :: i <= j < |r'.entries| ==> r'.entries[j] == r.entries[j + 1];
    if Get(r, k').Some? {
      var j :| 0 <= j < |r.entries| && r.entries[j].key == k';
      if j < i { assert r'.entries[j] == r.entries[j]; }
      else { assert r'.entries[j - 1] == r.entries[j]; }
    }
  }

  /** `clear`. */
  function Clear<K(==,!new), V>(r: Repo<K, V>): (r': Repo<K, V>)
    ensures Valid(r') && Count(r') == 0
    ensures forall k :: Get(r', k).None?
  {
    Repo([])
  }

  /** The set of stored keys: the dictionary's key view. */
  function KeySet<K, V>(r: Repo<K, V>): set<K> {
    set i | 0 <= i < |r.entries| :: r.entries[i].key
  }

  /** `count` is the number of distinct identifiers stored. */
  lemma {:induction false} CountIsDistinctKeys<K, V>(r: Repo<K, V>)
    requires Valid(r)
    ensures Count(r) == |KeySet(r)|
    decreases |r.entries|
  {
    if |r.entries| > 0 {
      var n := |r.entries| - 1;
      var r0 := Repo(r.entries[..n]);
      assert Valid(r0);
      CountIsDistinctKeys(r0);
      assert KeySet(r) == KeySet(r0) + {r.entries[n].key} by {
        forall x | x in KeySet(r) ensures x in KeySet(r0) + {r.entries[n].key} {
          var i :| 0 <= i < |r.entries| && r.entries[i].key == x;
          if i < n { assert r0.entries[i] == r.entries[i]; }
        }
        forall x | x in KeySet(r0) ensures x in KeySet(r) {
          var i :| 0 <= i < n && r0.entries[i].key == x;
          assert r.entries[i] == r0.entries[i];
        }
      }
      assert forall i :: 0 <= i < n ==> r0.entries[i].key != r.entries[n].key;
    }
  }

  /** The listed keys are pairwise distinct. */
  ghost predicate Distinct<K>(ks: seq<K>) {
    forall i, j :: 0 <= i < j < |ks| ==> ks[i] != ks[j]
  }

  /** Deletes every listed key in turn; when the keys are distinct and all
      stored, exactly that many entries go. */
  function DeleteEach<K(==,!new), V>(r: Repo<K, V>, ks: seq<K>): (r': Repo<K, V>)
    requires Valid(r)
    ensures Valid(r')
    ensures forall k :: k in ks ==> !Exists(r', k)
    ensures forall k :: k !in ks ==> Get(r', k) == Get(r, k)
    ensures Distinct(ks) && (forall k :: k in ks ==> Exists(r, k)) ==> Count(r') + |ks| == Count(r)
    decreases |ks|
  {
    if |ks| == 0 then r
    else
      var r1 := Delete(r, ks[0]).0;
      assert ks == [ks[0]] + ks[1..];
      assert Distinct(ks) && (forall k :: k in ks ==> Exists(r, k)) ==>
        Distinct(ks[1..]) && forall k :: k in ks[1..] ==> Exists(r1, k) by {
        if Distinct(ks) && (forall k :: k in ks ==> Exists(r, k)) {
          forall k | k in ks[1..] ensures Exists(r1, k) {
            var j :| 0 <= j < |ks[1..]| && ks[1..][j] == k;
            assert ks[j + 1] == k && ks[0] != k;
            assert k in ks && Exists(r, k);
            assert Get(r1, k) == Get(r, k);
          }
          forall i, j | 0 <= i < j < |ks[1..]| ensures ks[1..][i] != ks[1..][j] {
            assert ks[1..][i] == ks[i + 1] && ks[1..][j] == ks[j + 1];
          }
        }
      }
      DeleteEach(r1, ks[1..])
  }

  /** The keys of the entries whose value satisfies `p`, in storage order:
      one per matching value, never the same key twice. */
  function KeysWhere<K(!new), V(!new)>(r: Repo<K, V>, p: V -> bool): (ks: seq<K>)
    ensures |ks| == |Seqs.Filter(GetAll(r), p)|
    ensures Valid(r) ==> Distinct(ks)
    ensures forall k :: k in ks <==> exists i :: 0 <= i < |r.entries| && r.entries[i].key == k && p(r.entries[i].value)
    decreases |r.entries|
  {
    if |r.entries| == 0 then []
    else
      var rest := KeysWhere(Repo(r.entries[1..]), p);
      KeysWhereStep(r, p, rest);
      if p(r.entries[0].value) then [r.entries[0].key] + rest else rest
  }

  /** One step of `KeysWhere`: what holds of the keys collected from the
      tail carries over to the whole storage. */
  lemma KeysWhereStep<K(!new), V(!new)>(r: Repo<K, V>, p: V -> bool, rest: seq<K>)
    requires |r.entries| > 0
    requires |rest| == |Seqs.Filter(GetAll(Repo(r.entries[1..])), p)|
    requires Valid(Repo(r.entries[1..])) ==> Distinct(rest)
    requires forall k :: k in rest <==>
      exists i :: 0 <= i < |r.entries[1..]| && r.entries[1..][i].key == k && p(r.entries[1..][i].value)
    ensures var ks := if p(r.entries[0].value) then [r.entries[0].key] + rest else rest;
      && |ks| == |Seqs.Filter(GetAll(r), p)|
      && (Valid(r) ==> Distinct(ks))
      && forall k :: k in ks <==> exists i :: 0 <= i < |r.entries| && r.entries[i].key == k && p(r.entries[i].value)
  {
    StepCount(r, p, rest);
    StepMembers(r, p, rest);
    if Valid(r) {
      StepDistinct(r, p, rest);
    }
  }

  lemma StepCount<K(!new), V(!new)>(r: Repo<K, V>, p: V -> bool, rest: seq<K>)
    requires |r.entries| > 0
    requires |rest| == |Seqs.Filter(GetAll(Repo(r.entries[1..])), p)|
    ensures |if p(r.entries[0].value) then [r.entries[0].key] + rest else rest| == |Seqs.Filter(GetAll(r), p)|
  {
    var vs := GetAll(r);
    assert vs[0] == r.entries[0].value;
    assert vs[1..] == GetAll(Repo(r.entries[1..]));
  }

  lemma StepMembers<K(!new), V>(r: Repo<K, V>, p: V -> bool, rest: seq<K>)
    requires |r.entries| > 0
    requires forall k :: k in rest <==>
      exists i :: 0 <= i < |r.entries[1..]| && r.entries[1..][i].key == k && p(r.entries[1..][i].value)
    ensures var ks := if p(r.entries[0].value) then [r.entries[0].key] + rest else rest;
      forall k :: k in ks <==> exists i :: 0 <= i < |r.entries| && r.entries[i].key == k && p(r.entries[i].value)
  {
    var tail := r.entries[1..];
    var ks := if p(r.entries[0].value) then [r.entries[0].key] + rest else rest;
    forall k | k in ks
      ensures exists i :: 0 <= i < |r.entries| && r.entries[i].key == k && p(r.entries[i].value)
    {
      if k in rest {
        var i :| 0 <= i < |tail| && tail[i].key == k && p(tail[i].value);
        assert tail[i] == r.entries[i + 1];
      } else {
        assert r.entries[0].key == k;
      }
    }
    forall k | exists i :: 0 <= i < |r.entries| && r.entries[i].key == k && p(r.entries[i].value)
      ensures k in ks
    {
      var i :| 0 <= i < |r.entries| && r.entries[i].key == k && p(r.entries[i].value);
      if i > 0 { assert tail[i - 1] == r.entries[i]; }
    }
  }

  lemma StepDistinct<K(!new), V>(r: Repo<K, V>, p: V -> bool, rest: seq<K>)
    requires |r.entries| > 0 && Valid(r)
    requires Valid(Repo(r.entries[1..])) ==> Distinct(rest)
    requires forall k :: k in rest ==>
      exists i :: 0 <= i < |r.entries[1..]| && r.entries[1..][i].key == k && p(r.entries[1..][i].value)
    ensures Distinct(if p(r.entries[0].value) then [r.entries[0].key] + rest else rest)
  {
    var tail := r.entries[1..];
    assert Valid(Repo(tail)) by {
      forall i, j | 0 <= i < j < |tail| ensures tail[i].key != tail[j].key {
        assert tail[i] == r.entries[i + 1] && tail[j] == r.entries[j + 1];
      }
    }
    if p(r.entries[0].value) {
      var ks := [r.entries[0].key] + rest;
      forall k | k in rest ensures k != r.entries[0].key {
        var i :| 0 <= i < |tail| && tail[i].key == k && p(tail[i].value);
        assert tail[i] == r.entries[i + 1];
      }
      forall i, j | 0 <= i < j < |ks| ensures ks[i] != ks[j] {
        if i == 0 { assert ks[j] == rest[j - 1] && rest[j - 1] in rest; }
        else { assert ks[i] == rest[i - 1] && ks[j] == rest[j - 1]; }
      }
    }
  }

  /** The `clear_run` shape: collect the keys of matching entities, delete
      each, and report how many were collected. Entities that match are gone,
      every other entity is still stored as it was. */
  function DeleteWhere<K(==,!new), V(!new)>(r: Repo<K, V>, p: V -> bool): (res: (Repo<K, V>, nat))
    requires Valid(r)
    ensures Valid(res.0)
    ensures res.1 == |Seqs.Filter(GetAll(r), p)|
    ensures Count(res.0) + res.1 == Count(r)
    ensures forall k :: Get(res.0, k) == (if Get(r, k).Some? && !p(Get(r, k).value) then Get(r, k) else None)
  {
    var ks := KeysWhere(r, p);
    var r' := DeleteEach(r, ks);
    DeleteWhereFacts(r, p, ks, r');
    (r', |ks|)
  }

  /** Deleting the collected keys: every collected key was stored, and what
      remains is exactly the entries whose value fails the condition. */
  lemma DeleteWhereFacts<K(!new), V(!new)>(r: Repo<K, V>, p: V -> bool, ks: seq<K>, r': Repo<K, V>)
    requires Valid(r) && ks == KeysWhere(r, p) && r' == DeleteEach(r, ks)
    ensures forall k :: k in ks ==> Exists(r, k)
    ensures forall k :: Get(r', k) == (if Get(r, k).Some? && !p(Get(r, k).value) then Get(r, k) else None)
  {
    forall k | k in ks ensures Exists(r, k) {
      var i :| 0 <= i < |r.entries| && r.entries[i].key == k && p(r.entries[i].value);
    }
    forall k ensures Get(r', k) == (if Get(r, k).Some? && !p(Get(r, k).value) then Get(r, k) else None) {
      if k in ks {
        var i :| 0 <= i < |r.entries| && r.entries[i].key == k && p(r.entries[i].value);
      } else if Get(r, k).Some? {
        var i :| 0 <= i < |r.entries| && r.entries[i].key == k;
      }
    }
  }
}
