/** Python's insertion-ordered `dict` with string keys, as an association list whose
    keys are distinct. Assigning to an existing key keeps its position; assigning to a
    new key appends it; `pop` removes it. The key order is part of the scrapers'
    output, so every operation here states what happens to it. */
module Dicts {
  import opened Wrappers
  import opened Lists

  predicate UniqueKeys<V>(d: seq<(string, V)>) {
    forall i, j :: 0 <= i < j < |d| ==> d[i].0 != d[j].0
  }

  type Dict<V> = d: seq<(string, V)> | UniqueKeys(d) witness []

  function Keys<V>(d: seq<(string, V)>): (ks: seq<string>)
    ensures |ks| == |d|
    ensures forall i :: 0 <= i < |d| ==> ks[i] == d[i].0
  {
    seq(|d|, i requires 0 <= i < |d| => d[i].0)
  }

  /** Position of key `k`, or `|d|` when absent. */
  function Find<V>(d: seq<(string, V)>, k: string): (i: nat)
    ensures i <= |d|
    ensures i < |d| ==> d[i].0 == k
    ensures forall j :: 0 <= j < i ==> d[j].0 != k
    ensures i == |d| <==> k !in Keys(d)
  {
    if |d| == 0 then 0
    else if d[0].0 == k then 0
    else
      var r := 1 + Find(d[1..], k);
      assert Keys(d) == [d[0].0] + Keys(d[1..]);
      r
  }

  /** `k in d` */
  predicate Has<V>(d: seq<(string, V)>, k: string) {
    k in Keys(d)
  }

  lemma FindOfKey<V>(d: Dict<V>, j: nat)
    requires j < |d|
    ensures Find(d, d[j].0) == j
  {
  }

  /** The key stored at position `j` is present and holds the value stored there. */
  lemma KeyAt<V>(d: Dict<V>, j: nat)
    requires j < |d|
    ensures Has(d, d[j].0) && Get(d, d[j].0) == Some(d[j].1)
  {
    assert Keys(d)[j] == d[j].0;
    FindOfKey(d, j);
  }

  function Get<V>(d: seq<(string, V)>, k: string): (r: Option<V>)
    ensures r.Some? <==> Has(d, k)
  {
    var i := Find(d, k);
    if i < |d| then Some(d[i].1) else None
  }

  /** Looking up in a dict through its last entry and the entries before it. */
  lemma GetSnoc<V>(d: Dict<V>, k: string)
    requires |d| > 0
    ensures Has(d, k) <==> Has(d[..|d| - 1], k) || d[|d| - 1].0 == k
    ensures Get(d, k) == if d[|d| - 1].0 == k then Some(d[|d| - 1].1) else Get(d[..|d| - 1], k)
  {
    var p := d[..|d| - 1];
    assert Keys(d) == Keys(p) + [d[|d| - 1].0];
    if d[|d| - 1].0 == k {
      FindOfKey(d, |d| - 1);
    } else if Has(p, k) {
      var j := Find(p, k);
      FindOfKey(d, j);
    }
  }

  /** The first `k` entries, still a dict. */
  function Prefix<V>(d: Dict<V>, k: nat): (r: Dict<V>)
    requires k <= |d|
    ensures r == d[..k]
  {
    d[..k]
  }

  /** The last key of a dict is not among the earlier ones, and follows them. */
  lemma LastKeyFresh<V>(d: Dict<V>)
    requires |d| > 0
    ensures Keys(d) == Keys(d[..|d| - 1]) + [d[|d| - 1].0]
    ensures !Has(d[..|d| - 1], d[|d| - 1].0)
  {
    var p := d[..|d| - 1];
    assert Keys(d) == Keys(p) + [d[|d| - 1].0];
  }

  /** `d[k]`, failing with KeyError on a missing key */
  function Lookup<V>(d: seq<(string, V)>, k: string): (r: Result<V>)
    ensures r.Ok? <==> Has(d, k)
    ensures r.Ok? ==> Get(d, k) == Some(r.value)
    ensures r.Err? ==> r.error == KeyError
  {
    var i := Find(d, k);
    if i < |d| then Ok(d[i].1) else Err(KeyError)
  }

  /** `d[k] = v` */
  function SetItem<V>(d: Dict<V>, k: string, v: V): (r: Dict<V>)
    ensures Has(d, k) ==> |r| == |d| && r[Find(d, k)] == (k, v)
    ensures Has(d, k) ==> forall j :: 0 <= j < |d| && j != Find(d, k) ==> r[j] == d[j]
    ensures !Has(d, k) ==> r == d + [(k, v)]
    ensures Keys(r) == if Has(d, k) then Keys(d) else Keys(d) + [k]
  {
    var i := Find(d, k);
    if i < |d| then d[i := (k, v)] else d + [(k, v)]
  }

  /** A new key appended at the end. */
  function AddNew<V>(d: Dict<V>, k: string, v: V): (r: Dict<V>)
    requires !Has(d, k)
    ensures r == d + [(k, v)] && Keys(r) == Keys(d) + [k]
  {
    assert forall i :: 0 <= i < |d| ==> d[i].0 == Keys(d)[i];
    d + [(k, v)]
  }

  /** A dict of two distinct keys. */
  function Pair<V>(k1: string, v1: V, k2: string, v2: V): Dict<V>
    requires k1 != k2
  {
    [(k1, v1), (k2, v2)]
  }

  /** The two keys of a pair, and what each holds. */
  lemma GetPair<V>(k1: string, v1: V, k2: string, v2: V, k: string)
    requires k1 != k2
    ensures Keys(Pair(k1, v1, k2, v2)) == [k1, k2]
    ensures Get(Pair(k1, v1, k2, v2), k) == if k == k1 then Some(v1) else if k == k2 then Some(v2) else None
  {
    var d := Pair(k1, v1, k2, v2);
    KeyAt(d, 0);
    KeyAt(d, 1);
    if k != k1 && k != k2 {
      assert !Has(d, k);
    }
  }

  /** Assigning a key that no entry holds appends it. */
  lemma SetItemFresh<V>(d: Dict<V>, k: string, v: V)
    requires forall i :: 0 <= i < |d| ==> d[i].0 != k
    ensures SetItem(d, k, v) == d + [(k, v)]
  {
    assert !Has(d, k);
  }

  /** After `d[k] = v`, `k` maps to `v` and every other key keeps its value. */
  lemma GetSetItem<V>(d: Dict<V>, k: string, v: V, k': string)
    ensures Get(SetItem(d, k, v), k') == if k' == k then Some(v) else Get(d, k')
  {
    var r := SetItem(d, k, v);
    if k' == k {
      if Has(d, k) { FindOfKey(r, Find(d, k)); } else { FindOfKey(r, |d|); }
    } else if Has(d, k') {
      FindOfKey(d, Find(d, k'));
      FindOfKey(r, Find(d, k'));
    } else {
      assert !Has(r, k');
    }
  }

  /** After `d[k] = v` the dict holds exactly the old keys and `k`. */
  lemma HasSetItem<V>(d: Dict<V>, k: string, v: V, k': string)
    ensures Has(SetItem(d, k, v), k') <==> k' == k || Has(d, k')
  {
    var r := SetItem(d, k, v);
    if !Has(d, k) {
      assert Keys(r) == Keys(d) + [k];
    }
  }

  /** `for k, v in zip(ks, vs): d[k] = v`, starting from an empty dict. */
  function SetAll<V>(ks: seq<string>, vs: seq<V>): Dict<V>
    requires |ks| == |vs|
  {
    if |ks| == 0 then []
    else SetItem(SetAll(ks[..|ks| - 1], vs[..|vs| - 1]), ks[|ks| - 1], vs[|vs| - 1])
  }

  /** The keys are those of `ks`, each at its first occurrence. */
  lemma {:induction false} SetAllKeys<V>(ks: seq<string>, vs: seq<V>)
    requires |ks| == |vs|
    ensures Keys(SetAll(ks, vs)) == Dedup(ks)
  {
    if |ks| > 0 {
      SetAllKeys(ks[..|ks| - 1], vs[..|vs| - 1]);
    }
  }

  /** Every value stored is one of `vs`. */
  lemma {:induction false} SetAllValues<V>(ks: seq<string>, vs: seq<V>)
    requires |ks| == |vs|
    ensures forall i :: 0 <= i < |SetAll(ks, vs)| ==> SetAll(ks, vs)[i].1 in vs
  {
    if |ks| > 0 {
      var n := |ks| - 1;
      var vs' := vs[..n];
      SetAllValues(ks[..n], vs');
      var p := SetAll(ks[..n], vs');
      forall i | 0 <= i < |SetAll(ks, vs)| ensures SetAll(ks, vs)[i].1 in vs {
        if i < |p| && SetAll(ks, vs)[i] == p[i] {
          var j :| 0 <= j < n && vs'[j] == p[i].1;
          assert vs[j] == vs'[j];
        }
      }
    }
  }

  /** With distinct keys, the dict is the pairs of `ks` and `vs` in order. */
  lemma {:induction false} SetAllDistinct<V>(ks: seq<string>, vs: seq<V>)
    requires |ks| == |vs| && Distinct(ks)
    ensures |SetAll(ks, vs)| == |ks|
    ensures forall j :: 0 <= j < |ks| ==> SetAll(ks, vs)[j] == (ks[j], vs[j])
  {
    if |ks| > 0 {
      var n := |ks| - 1;
      var p := SetAll(ks[..n], vs[..n]);
      assert Distinct(ks[..n]) by {
        forall i, j | 0 <= i < j < n ensures ks[..n][i] != ks[..n][j] {
          assert ks[..n][i] == ks[i] && ks[..n][j] == ks[j];
        }
      }
      SetAllDistinct(ks[..n], vs[..n]);
      forall i | 0 <= i < |p| ensures p[i].0 != ks[n] {
        assert p[i].0 == ks[..n][i] == ks[i];
      }
      SetItemFresh(p, ks[n], vs[n]);
    }
  }

  /** A key holds the value paired with its last occurrence. */
  lemma GetSetAll<V>(ks: seq<string>, vs: seq<V>, j: nat)
    requires |ks| == |vs| && j < |ks|
    requires forall j' :: j < j' < |ks| ==> ks[j'] != ks[j]
    ensures Get(SetAll(ks, vs), ks[j]) == Some(vs[j])
  {
    GetSetAllUpTo(ks, vs, j, |ks|);
    assert ks[..|ks|] == ks && vs[..|ks|] == vs;
  }

  /** The same over the first `m` pairs, by induction on `m`. */
  lemma {:induction false} GetSetAllUpTo<V>(ks: seq<string>, vs: seq<V>, j: nat, m: nat)
    requires |ks| == |vs| && j < m <= |ks|
    requires forall j' :: j < j' < m ==> ks[j'] != ks[j]
    ensures Get(SetAll(ks[..m], vs[..m]), ks[j]) == Some(vs[j])
  {
    var p := m - 1;
    if p == j {
      GetSetAllLast(ks, vs, p);
    } else {
      GetSetAllUpTo(ks, vs, j, p);
      GetSetAllKeeps(ks, vs, j, p);
    }
  }

  /** The pair assigned last is in the dict. */
  lemma GetSetAllLast<V>(ks: seq<string>, vs: seq<V>, p: nat)
    requires |ks| == |vs| && p < |ks|
    ensures Get(SetAll(ks[..p + 1], vs[..p + 1]), ks[p]) == Some(vs[p])
  {
    GetSetAllPrefixSnoc(ks, vs, p, ks[p]);
    GetSetItem(SetAll(ks[..p], vs[..p]), ks[p], vs[p], ks[p]);
  }

  /** Assigning a different key keeps what an earlier pair stored. */
  lemma GetSetAllKeeps<V>(ks: seq<string>, vs: seq<V>, j: nat, p: nat)
    requires |ks| == |vs| && j < p < |ks| && ks[p] != ks[j]
    requires Get(SetAll(ks[..p], vs[..p]), ks[j]) == Some(vs[j])
    ensures Get(SetAll(ks[..p + 1], vs[..p + 1]), ks[j]) == Some(vs[j])
  {
    GetSetAllPrefixSnoc(ks, vs, p, ks[j]);
    GetSetItemKeeps(SetAll(ks[..p], vs[..p]), ks[p], vs[p], ks[j], vs[j]);
  }

  /** One more assignment extends the fold over a prefix. */
  lemma GetSetAllPrefixSnoc<V>(ks: seq<string>, vs: seq<V>, m: nat, k: string)
    requires |ks| == |vs| && m < |ks|
    ensures Get(SetAll(ks[..m + 1], vs[..m + 1]), k) == Get(SetItem(SetAll(ks[..m], vs[..m]), ks[m], vs[m]), k)
  {
    assert ks[..m + 1][..m] == ks[..m] && vs[..m + 1][..m] == vs[..m];
  }

  /** Assigning another key keeps a key's value. */
  lemma GetSetItemKeeps<V>(d: Dict<V>, k: string, v: V, k': string, w: V)
    requires k' != k && Get(d, k') == Some(w)
    ensures Get(SetItem(d, k, v), k') == Some(w)
  {
    GetSetItem(d, k, v, k');
  }

  /** Assigning the same key twice leaves only the second value, in the same place. */
  lemma SetItemTwice<V>(d: Dict<V>, k: string, v: V, w: V)
    ensures SetItem(SetItem(d, k, v), k, w) == SetItem(d, k, w)
  {
    var r := SetItem(d, k, v);
    if Has(d, k) { FindOfKey(r, Find(d, k)); } else { FindOfKey(r, |d|); }
  }

  /** `d.pop(k)` for a key known to be present, or the unchanged dict otherwise. */
  function Remove<V>(d: Dict<V>, k: string): (r: Dict<V>)
    ensures Has(d, k) ==> r == d[..Find(d, k)] + d[Find(d, k) + 1..]
    ensures !Has(d, k) ==> r == d
  {
    var i := Find(d, k);
    if i < |d| then RemoveAt(d, i) else d
  }

  /** The dict without its entry at position `i`. */
  function RemoveAt<V>(d: Dict<V>, i: nat): (r: Dict<V>)
    requires i < |d|
    ensures r == d[..i] + d[i + 1..]
  {
    RemoveAtUnique(d, i);
    d[..i] + d[i + 1..]
  }

  lemma RemoveAtUnique<V>(d: Dict<V>, i: nat)
    requires i < |d|
    ensures UniqueKeys(d[..i] + d[i + 1..])
  {
    var r := d[..i] + d[i + 1..];
    assert forall j :: 0 <= j < |r| ==> r[j] == if j < i then d[j] else d[j + 1];
  }

  /** Removing a key keeps the remaining keys in their order. */
  lemma KeysRemove<V>(d: Dict<V>, k: string)
    ensures IsSubseq(Keys(Remove(d, k)), Keys(d))
  {
    if Has(d, k) {
      var i := Find(d, k);
      var r := Remove(d, k);
      var ks := Keys(d)[..i] + Keys(d)[i + 1..];
      assert |Keys(r)| == |ks|;
      forall j | 0 <= j < |ks| ensures Keys(r)[j] == ks[j] {
        if j < i {
          assert r[j] == d[j];
        } else {
          assert r[j] == d[j + 1];
        }
      }
      assert Keys(r) == ks;
      DeleteAtSubseq(Keys(d), i);
    } else {
      SubseqRefl(Keys(d));
    }
  }

  lemma GetRemove<V>(d: Dict<V>, k: string, k': string)
    ensures Get(Remove(d, k), k') == if k' == k then None else Get(d, k')
  {
    if Has(d, k) {
      GetRemoveAt(d, Find(d, k), k');
    }
  }

  /** Entry `j` of the dict without position `i`. */
  lemma RemoveAtEntries<V>(d: Dict<V>, i: nat)
    requires i < |d|
    ensures |RemoveAt(d, i)| == |d| - 1
    ensures forall j :: 0 <= j < i ==> RemoveAt(d, i)[j] == d[j]
    ensures forall j :: i <= j < |d| - 1 ==> RemoveAt(d, i)[j] == d[j + 1]
  {
  }

  /** Removing the entry at `i` loses its key and keeps every other. */
  lemma GetRemoveAt<V>(d: Dict<V>, i: nat, k': string)
    requires i < |d|
    ensures Get(RemoveAt(d, i), k') == if k' == d[i].0 then None else Get(d, k')
  {
    var r := RemoveAt(d, i);
    RemoveAtEntries(d, i);
    if k' != d[i].0 && Has(d, k') {
      var j := Find(d, k');
      var j' := if j < i then j else j - 1;
      assert r[j'] == d[j];
      FindOfKey(r, j');
    } else {
      forall j | 0 <= j < |r| ensures Keys(r)[j] != k' {
        var jd := if j < i then j else j + 1;
        assert r[j] == d[jd];
        assert Keys(d)[jd] == d[jd].0;
      }
    }
  }

  /** Appending a key no entry holds keeps the keys distinct. */
  lemma AppendFresh<V>(q: Dict<V>, e: (string, V))
    requires !Has(q, e.0)
    ensures UniqueKeys(q + [e])
  {
    forall j | 0 <= j < |q| ensures q[j].0 != e.0 {
      assert Keys(q)[j] == q[j].0;
    }
  }

  /** Removing a key after appending another key appends to the removal. */
  lemma RemoveAppend<V>(q: Dict<V>, k: string, e: (string, V))
    requires !Has(q, e.0) && e.0 != k
    ensures UniqueKeys(q + [e])
    ensures Remove(q + [e], k) == Remove(q, k) + [e]
  {
    AppendFresh(q, e);
    RemoveAppended(q, q + [e], k);
  }

  lemma RemoveAppended<V>(q: Dict<V>, r: Dict<V>, k: string)
    requires |r| == |q| + 1 && r[..|q|] == q && r[|q|].0 != k
    ensures Remove(r, k) == Remove(q, k) + [r[|q|]]
  {
    if Has(q, k) {
      RemoveAppendedAt(q, r, Find(q, k));
    } else {
      assert Keys(r) == Keys(q) + [r[|q|].0];
    }
  }

  lemma RemoveAppendedAt<V>(q: Dict<V>, r: Dict<V>, i: nat)
    requires |r| == |q| + 1 && r[..|q|] == q && i < |q|
    ensures Remove(r, q[i].0) == Remove(q, q[i].0) + [r[|q|]]
  {
    assert r[i] == q[i];
    FindOfKey(r, i);
    FindOfKey(q, i);
    var a := r[..i] + r[i + 1..];
    var b := q[..i] + q[i + 1..] + [r[|q|]];
    assert |a| == |b|;
    forall j | 0 <= j < |a| ensures a[j] == b[j] {
      if j < i {
        assert a[j] == r[j] && b[j] == q[j];
      } else if j < |q| - 1 {
        assert a[j] == r[j + 1] && b[j] == q[j + 1];
      }
    }
  }

  /** A temporary key set and removed again leaves the dict as if it had only been
      removed. */
  lemma RemoveSetItem<V>(d: Dict<V>, k: string, v: V)
    ensures Remove(SetItem(d, k, v), k) == Remove(d, k)
  {
    var q := SetItem(d, k, v);
    if Has(d, k) {
      var i := Find(d, k);
      FindOfKey(q, i);
      assert q[..i] == d[..i];
      assert q[i + 1..] == d[i + 1..];
    } else {
      FindOfKey(q, |d|);
      assert q[..|d|] == d;
    }
  }

  /** `d.pop(k)`: the value and the dict without `k`, or KeyError. */
  function Pop<V>(d: Dict<V>, k: string): (r: Result<(V, Dict<V>)>)
    ensures r.Ok? <==> Has(d, k)
    ensures r.Ok? ==> Get(d, k) == Some(r.value.0) && r.value.1 == Remove(d, k)
    ensures r.Err? ==> r.error == KeyError
  {
    var v :- Lookup(d, k);
    Ok((v, Remove(d, k)))
  }

  // ---------------------------------------------------------------- projection

  /** The keys of `order` that `d` has, in `order`'s order. */
  function PresentIn<V>(order: seq<string>, d: seq<(string, V)>): (r: seq<string>)
    ensures forall k :: k in r <==> k in order && Has(d, k)
  {
    if |order| == 0 then []
    else
      var p := PresentIn(order[..|order| - 1], d);
      var k := order[|order| - 1];
      assert order == order[..|order| - 1] + [k];
      if Has(d, k) then p + [k] else p
  }

  /** `{k: d[k] for k in order if k in d}` */
  function Project<V>(d: Dict<V>, order: seq<string>): (r: Dict<V>)
    ensures Keys(r) == Dedup(PresentIn(order, d))
  {
    if |order| == 0 then []
    else
      var p := Project(d, order[..|order| - 1]);
      var k := order[|order| - 1];
      if Has(d, k) then SetItem(p, k, Get(d, k).value) else p
  }

  /** The projection keeps exactly the keys that are both listed and present, with
      their values, and drops every key the order does not list. */
  lemma {:induction false} GetProject<V>(d: Dict<V>, order: seq<string>, k: string)
    ensures Get(Project(d, order), k) == if k in order then Get(d, k) else None
  {
    if |order| > 0 {
      var o' := order[..|order| - 1];
      var last := order[|order| - 1];
      assert order == o' + [last];
      GetProject(d, o', k);
      if Has(d, last) {
        GetSetItem(Project(d, o'), last, Get(d, last).value, k);
      }
    }
  }

  /** The projection's keys are a subsequence of the order. */
  lemma ProjectKeysSubseq<V>(d: Dict<V>, order: seq<string>)
    ensures IsSubseq(Keys(Project(d, order)), order)
  {
    DedupIsSubseq(PresentIn(order, d));
    PresentInSubseq(order, d);
    SubseqTrans(Dedup(PresentIn(order, d)), PresentIn(order, d), order);
  }

  lemma {:induction false} PresentInSubseq<V>(order: seq<string>, d: seq<(string, V)>)
    ensures IsSubseq(PresentIn(order, d), order)
  {
    if |order| > 0 {
      var o' := order[..|order| - 1];
      var k := order[|order| - 1];
      PresentInSubseq(o', d);
      var p := PresentIn(o', d);
      if Has(d, k) {
        var r := p + [k];
        assert r[..|r| - 1] == p;
      } else {
        SubseqExtend(p, o', k);
        assert o' + [k] == order;
      }
    }
  }

  lemma {:induction false} SubseqTrans<T>(xs: seq<T>, ys: seq<T>, zs: seq<T>)
    requires IsSubseq(xs, ys) && IsSubseq(ys, zs)
    ensures IsSubseq(xs, zs)
    decreases |zs|
  {
    if |xs| > 0 {
      var zs' := zs[..|zs| - 1];
      if ys[|ys| - 1] == zs[|zs| - 1] {
        if xs[|xs| - 1] == ys[|ys| - 1] {
          SubseqTrans(xs[..|xs| - 1], ys[..|ys| - 1], zs');
        } else {
          SubseqTrans(xs, ys[..|ys| - 1], zs');
          SubseqExtend(xs, zs', zs[|zs| - 1]);
          assert zs' + [zs[|zs| - 1]] == zs;
        }
      } else {
        SubseqTrans(xs, ys, zs');
        SubseqExtend(xs, zs', zs[|zs| - 1]);
        assert zs' + [zs[|zs| - 1]] == zs;
      }
    }
  }

  // ---------------------------------------------------------------- deletion

  /** `for k in ks: if k in d: d.pop(k)` */
  function DeleteAll<V>(d: Dict<V>, ks: seq<string>): Dict<V>
  {
    if |ks| == 0 then d
    else
      var p := DeleteAll(d, ks[..|ks| - 1]);
      var k := ks[|ks| - 1];
      if Has(p, k) then Remove(p, k) else p
  }

  /** Deletion drops exactly the listed keys, ignores listed keys that are missing,
      and keeps every other key with its value. */
  lemma {:induction false} GetDeleteAll<V>(d: Dict<V>, ks: seq<string>, k: string)
    ensures Get(DeleteAll(d, ks), k) == if k in ks then None else Get(d, k)
  {
    if |ks| > 0 {
      var ks' := ks[..|ks| - 1];
      assert ks == ks' + [ks[|ks| - 1]];
      GetDeleteAll(d, ks', k);
      GetRemove(DeleteAll(d, ks'), ks[|ks| - 1], k);
    }
  }

  /** The keys left after deletion are in their original order. */
  lemma {:induction false} DeleteAllKeysSubseq<V>(d: Dict<V>, ks: seq<string>)
    ensures IsSubseq(Keys(DeleteAll(d, ks)), Keys(d))
  {
    if |ks| == 0 {
      SubseqRefl(Keys(d));
    } else {
      var p := DeleteAll(d, ks[..|ks| - 1]);
      DeleteAllKeysSubseq(d, ks[..|ks| - 1]);
      KeysRemove(p, ks[|ks| - 1]);
      SubseqTrans(Keys(DeleteAll(d, ks)), Keys(p), Keys(d));
    }
  }

  // ---------------------------------------------------------------- values

  /** Every value of `d` replaced by `f(key, value)`, key by key, stopping at the first
      failure: what a loop `for k in d.keys(): d[k] = f(k, d[k])` leaves. */
  function MapValues<V, W>(d: Dict<V>, f: (string, V) -> Result<W>): (r: Result<Dict<W>>)
    ensures r.Ok? <==> forall j :: 0 <= j < |d| ==> f(d[j].0, d[j].1).Ok?
    ensures r.Ok? ==> Keys(r.value) == Keys(d)
    ensures r.Ok? ==> forall j :: 0 <= j < |d| ==> f(d[j].0, d[j].1) == Ok(r.value[j].1)
  {
    if |d| == 0 then Ok([])
    else
      var n := |d| - 1;
      var init :- MapValues(d[..n], f);
      var last :- f(d[n].0, d[n].1);
      var r := init + [(d[n].0, last)];
      assert Keys(r) == Keys(d);
      Ok(r)
  }

  /** The state of a loop that translates `d` in place: the first `i` values are
      translated, the rest are untouched, and the keys stay where they were. */
  ghost predicate TranslatedUpTo<V>(d: Dict<V>, f: (string, V) -> Result<V>, cur: Dict<V>, i: nat) {
    && i <= |d| && |cur| == |d|
    && (forall j :: 0 <= j < |d| ==> cur[j].0 == d[j].0)
    && (forall j :: i <= j < |d| ==> cur[j] == d[j])
    && MapValuesUpTo(d, f, i) == Ok(cur[..i])
  }

  /** Assigning the translated value of entry `i` to its key advances the state. */
  lemma TranslatedStep<V>(d: Dict<V>, f: (string, V) -> Result<V>, cur: Dict<V>, i: nat, v: V)
    requires TranslatedUpTo(d, f, cur, i) && i < |d| && f(d[i].0, d[i].1) == Ok(v)
    ensures TranslatedUpTo(d, f, SetItem(cur, d[i].0, v), i + 1)
  {
    var k := d[i].0;
    FindOfKey(cur, i);
    var next := SetItem(cur, k, v);
    var acc := cur[..i] + [(k, v)];
    assert MapValuesUpTo(d, f, i + 1) == Ok(acc);
    forall j | 0 <= j < |d| ensures next[j] == if j == i then (k, v) else cur[j] {
    }
    forall j | 0 <= j <= i ensures next[..i + 1][j] == acc[j] {
      if j < i { assert acc[j] == cur[..i][j]; }
    }
    assert next[..i + 1] == acc;
  }

  /** After the last entry the state is the whole translation. */
  lemma TranslatedDone<V>(d: Dict<V>, f: (string, V) -> Result<V>, cur: Dict<V>)
    requires TranslatedUpTo(d, f, cur, |d|)
    ensures MapValues(d, f) == Ok(cur)
  {
    assert cur[..|d|] == cur;
    MapValuesLoopDone(d, f, cur);
  }

  /** A failed translation reports the error of one of the entries. */
  lemma {:induction false} MapValuesErrorAt<V, W>(d: Dict<V>, f: (string, V) -> Result<W>)
    requires MapValues(d, f).Err?
    ensures exists j :: 0 <= j < |d| && f(d[j].0, d[j].1) == Err(MapValues(d, f).error)
  {
    var n := |d| - 1;
    var init: Dict<V> := d[..n];
    if MapValues(init, f).Err? {
      MapValuesErrorAt(init, f);
      var j :| 0 <= j < |init| && f(init[j].0, init[j].1) == Err(MapValues(init, f).error);
      assert init[j] == d[j];
    } else {
      assert f(d[n].0, d[n].1) == Err(MapValues(d, f).error);
    }
  }

  /** The first `i` entries translated: what a loop over `d` has built after `i`
      iterations. */
  function MapValuesUpTo<V, W>(d: Dict<V>, f: (string, V) -> Result<W>, i: nat): Result<seq<(string, W)>>
    requires i <= |d|
  {
    if i == 0 then Ok([])
    else
      var m: nat := i - 1;
      match MapValuesUpTo(d, f, m)
      case Err(e) => Err(e)
      case Ok(init) =>
        match f(d[m].0, d[m].1)
        case Err(e) => Err(e)
        case Ok(v) => Ok(init + [(d[m].0, v)])
  }

  /** The loop's state after `i` iterations is the translation of the first `i` entries. */
  lemma {:induction false} MapValuesUpToPrefix<V, W>(d: Dict<V>, f: (string, V) -> Result<W>, i: nat)
    requires i <= |d|
    ensures MapValuesUpTo(d, f, i) == MapValues(d[..i], f)
  {
    if i > 0 {
      var m: nat := i - 1;
      MapValuesUpToPrefix(d, f, m);
      assert d[..i][..m] == d[..m];
    }
  }

  /** One iteration of the loop: the next key is new, and a failing entry ends the
      translation of the whole dict with its error. */
  lemma MapValuesLoopStep<V, W>(d: Dict<V>, f: (string, V) -> Result<W>, i: nat, acc: seq<(string, W)>)
    requires i < |d| && MapValuesUpTo(d, f, i) == Ok(acc)
    ensures !Has(acc, d[i].0)
    ensures f(d[i].0, d[i].1).Err? ==> MapValues(d, f) == Err(f(d[i].0, d[i].1).error)
  {
    MapValuesUpToPrefix(d, f, i);
    assert Keys(acc) == Keys(d[..i]);
    if f(d[i].0, d[i].1).Err? {
      MapValuesFirstError(d, f, i, |d|);
      MapValuesLoopDoneAny(d, f);
    }
  }

  lemma MapValuesLoopDoneAny<V, W>(d: Dict<V>, f: (string, V) -> Result<W>)
    ensures MapValues(d, f) == MapValuesUpTo(d, f, |d|)
  {
    MapValuesUpToPrefix(d, f, |d|);
    assert d[..|d|] == d;
  }

  /** After the last iteration the loop has built the whole translation. */
  lemma MapValuesLoopDone<V, W>(d: Dict<V>, f: (string, V) -> Result<W>, acc: seq<(string, W)>)
    requires MapValuesUpTo(d, f, |d|) == Ok(acc)
    ensures MapValues(d, f) == Ok(acc)
  {
    MapValuesUpToPrefix(d, f, |d|);
    assert d[..|d|] == d;
  }

  /** A failing entry after a successful prefix fails every longer prefix with its
      error. */
  lemma {:induction false} MapValuesFirstError<V, W>(d: Dict<V>, f: (string, V) -> Result<W>, i: nat, k: nat)
    requires i < k <= |d|
    requires MapValuesUpTo(d, f, i).Ok? && f(d[i].0, d[i].1).Err?
    ensures MapValuesUpTo(d, f, k) == Err(f(d[i].0, d[i].1).error)
  {
    if k > i + 1 {
      var m: nat := k - 1;
      MapValuesFirstError(d, f, i, m);
    }
  }

  /** `list(d.values())` */
  function ValuesOf<V>(d: Dict<V>): (r: seq<V>)
    ensures |r| == |d|
    ensures forall j :: 0 <= j < |d| ==> r[j] == d[j].1
  {
    seq(|d|, j requires 0 <= j < |d| => d[j].1)
  }

  // ---------------------------------------------------------------- first wins

  /** Keyed items folded into a dict where the first item with each key wins and `f`
      is applied to that item only: what a loop `if k not in d: d[k] = f(x)` builds,
      stopping at the first failure. */
  function FirstWins<T, V>(items: seq<(string, T)>, f: T -> Result<V>): Result<Dict<V>> {
    if |items| == 0 then Ok([])
    else
      match FirstWins(items[..|items| - 1], f)
      case Err(e) => Err(e)
      case Ok(acc) =>
        var last := items[|items| - 1];
        if Has(acc, last.0) then Ok(acc)
        else
          match f(last.1)
          case Err(e) => Err(e)
          case Ok(v) => Ok(SetItem(acc, last.0, v))
  }

  /** The first position of a key in a prefix is its first position in the whole. */
  lemma FindPrefix<T>(items: seq<(string, T)>, m: nat, k: string)
    requires m <= |items| && Has(items[..m], k)
    ensures Find(items, k) == Find(items[..m], k)
  {
    var i := Find(items[..m], k);
    assert items[..m][i] == items[i];
    forall j | 0 <= j < i ensures items[j].0 != k {
      assert items[..m][j] == items[j];
    }
    assert Keys(items)[i] == k;
  }

  /** A key that first appears at position `n`. */
  lemma FindLast<T>(items: seq<(string, T)>, n: nat)
    requires n < |items| && !Has(items[..n], items[n].0)
    ensures Find(items, items[n].0) == n
  {
    assert Keys(items)[n] == items[n].0;
    forall j | 0 <= j < n ensures items[j].0 != items[n].0 {
      assert Keys(items[..n])[j] == items[j].0;
    }
  }

  /** The keys are the item keys in order of first appearance. */
  lemma {:induction false} FirstWinsKeys<T, V>(items: seq<(string, T)>, f: T -> Result<V>)
    requires FirstWins(items, f).Ok?
    ensures Keys(FirstWins(items, f).value) == Dedup(Keys(items))
  {
    if |items| > 0 {
      var n := |items| - 1;
      var p := items[..n];
      FirstWinsKeys(p, f);
      assert Keys(items)[..n] == Keys(p);
    }
  }

  /** Each key of `r` is an item key and holds `f` of the first item with that key. */
  ghost predicate FirstOf<T, V>(items: seq<(string, T)>, f: T -> Result<V>, r: seq<(string, V)>) {
    forall j :: 0 <= j < |r| ==> Has(items, r[j].0) && f(items[Find(items, r[j].0)].1) == Ok(r[j].1)
  }

  /** Each key holds `f` of the first item with that key. */
  lemma {:induction false} FirstWinsFirst<T, V>(items: seq<(string, T)>, f: T -> Result<V>)
    requires FirstWins(items, f).Ok?
    ensures FirstOf(items, f, FirstWins(items, f).value)
  {
    if |items| > 0 {
      var n := |items| - 1;
      var p := items[..n];
      FirstWinsFirst(p, f);
      var acc := FirstWins(p, f).value;
      FirstOfPrefix(items, f, n, acc);
      var last := items[n];
      if !Has(acc, last.0) {
        FirstWinsKeys(p, f);
        FirstOfAppend(items, f, acc, f(last.1).value);
      }
    }
  }

  /** What holds of a prefix's first items holds of the whole. */
  lemma FirstOfPrefix<T, V>(items: seq<(string, T)>, f: T -> Result<V>, n: nat, acc: seq<(string, V)>)
    requires n <= |items| && FirstOf(items[..n], f, acc)
    ensures FirstOf(items, f, acc)
  {
    forall j | 0 <= j < |acc|
      ensures Has(items, acc[j].0) && f(items[Find(items, acc[j].0)].1) == Ok(acc[j].1)
    {
      FindPrefix(items, n, acc[j].0);
      var i := Find(items[..n], acc[j].0);
      assert items[..n][i] == items[i];
    }
  }

  /** The last item, with a key not seen before, is the first with its key. */
  lemma FirstOfAppend<T, V>(items: seq<(string, T)>, f: T -> Result<V>, acc: Dict<V>, v: V)
    requires |items| > 0 && FirstOf(items, f, acc)
    requires Keys(acc) == Dedup(Keys(items[..|items| - 1]))
    requires !Has(acc, items[|items| - 1].0) && f(items[|items| - 1].1) == Ok(v)
    ensures FirstOf(items, f, SetItem(acc, items[|items| - 1].0, v))
  {
    var n := |items| - 1;
    var r := SetItem(acc, items[n].0, v);
    assert r == acc + [(items[n].0, v)];
    assert !Has(items[..n], items[n].0) by {
      var ks := Keys(items[..n]);
      forall i | 0 <= i < |ks| ensures ks[i] != items[n].0 {
        assert ks[i] in Keys(acc);
      }
    }
    FindLast(items, n);
    assert Keys(items)[n] == items[n].0;
    assert FirstOf(items, f, [(items[n].0, v)]);
    FirstOfConcat(items, f, acc, [(items[n].0, v)]);
  }

  lemma FirstOfConcat<T, V>(items: seq<(string, T)>, f: T -> Result<V>, a: seq<(string, V)>, b: seq<(string, V)>)
    requires FirstOf(items, f, a) && FirstOf(items, f, b)
    ensures FirstOf(items, f, a + b)
  {
    forall j | 0 <= j < |a + b| ensures Has(items, (a + b)[j].0) && f(items[Find(items, (a + b)[j].0)].1) == Ok((a + b)[j].1) {
      if j < |a| {
        assert (a + b)[j] == a[j];
      } else {
        assert (a + b)[j] == b[j - |a|];
      }
    }
  }

  /** The fold stops at its first failure. */
  lemma {:induction false} FirstWinsFails<T, V>(items: seq<(string, T)>, f: T -> Result<V>, i: nat)
    requires i <= |items| && FirstWins(items[..i], f).Err?
    ensures FirstWins(items, f) == FirstWins(items[..i], f)
    decreases |items| - i
  {
    if i == |items| {
      assert items[..i] == items;
    } else {
      var m: nat := i + 1;
      assert items[..m][..i] == items[..i];
      FirstWinsFails(items, f, m);
    }
  }

  /** One more item folded in. */
  lemma FirstWinsSnoc<T, V>(items: seq<(string, T)>, f: T -> Result<V>, i: nat)
    requires i < |items|
    ensures FirstWins(items[..i + 1], f) ==
      match FirstWins(items[..i], f)
      case Err(e) => Err(e)
      case Ok(acc) =>
        if Has(acc, items[i].0) then Ok(acc)
        else
          match f(items[i].1)
          case Err(e) => Err(e)
          case Ok(v) => Ok(SetItem(acc, items[i].0, v))
  {
    assert items[..i + 1][..i] == items[..i];
  }
}
