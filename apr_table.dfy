/**
 * The string table the objectnames keep their key/value constraints in
 * (an apr_table_t). A table is an insertion-ordered sequence of entries;
 * iterating over it visits the entries in that order.
 *
 * Keys are compared exactly. The APR table compares keys without regard
 * to letter case; this model does not.
 */
module AprTable {
  import opened Wrappers

  type Entry = (string, string)
  type Table = seq<Entry>

  /** No key occurs twice: every table built with Set has this shape. */
  predicate DistinctKeys(t: Table) {
    forall i, j :: 0 <= i < j < |t| ==> t[i].0 != t[j].0
  }

  /** Position of the first entry with key k, or |t| when there is none. */
  function Find(t: Table, k: string): (i: nat)
    ensures i <= |t|
    ensures i < |t| ==> t[i].0 == k
    ensures forall j :: 0 <= j < i ==> t[j].0 != k
  {
    if t == [] then 0 else if t[0].0 == k then 0 else 1 + Find(t[1..], k)
  }

  /** apr_table_get: the value of the first entry with key k. */
  function Get(t: Table, k: string): (r: Option<string>)
    ensures r.Some? <==> exists i :: 0 <= i < |t| && t[i].0 == k
  {
    var i := Find(t, k);
    if i < |t| then Some(t[i].1) else None
  }

  lemma GetAt(t: Table, i: nat)
    requires DistinctKeys(t) && i < |t|
    ensures Get(t, t[i].0) == Some(t[i].1)
  {
    var j := Find(t, t[i].0);
    assert j <= i;
  }

  /** The entries of t whose key is not k, in order. */
  function Without(t: Table, k: string): (r: Table)
    ensures forall j :: 0 <= j < |r| ==> r[j].0 != k
    ensures |r| <= |t|
  {
    if t == [] then []
    else if t[0].0 == k then Without(t[1..], k)
    else [t[0]] + Without(t[1..], k)
  }

  /**
   * apr_table_set: overwrite the value of the first entry with key k in
   * place (dropping any later entry with that key), or append (k, v).
   */
  function Set(t: Table, k: string, v: string): (r: Table)
    ensures Get(r, k) == Some(v)
    ensures forall k' :: k' != k ==> Get(r, k') == Get(t, k')
    ensures DistinctKeys(t) ==> DistinctKeys(r)
    ensures Get(t, k).None? ==> r == t + [(k, v)]
    ensures Get(t, k).Some? && DistinctKeys(t) ==> |r| == |t|
  {
    var i := Find(t, k);
    if i == |t| then
      SetAppends(t, k, v);
      t + [(k, v)]
    else
      SetReplaces(t, i, k, v);
      t[..i] + [(k, v)] + Without(t[i + 1..], k)
  }

  /** apr_table_set of a key the table does not carry. */
  lemma SetAppends(t: Table, k: string, v: string)
    requires Find(t, k) == |t|
    ensures Get(t + [(k, v)], k) == Some(v)
    ensures forall k' :: k' != k ==> Get(t + [(k, v)], k') == Get(t, k')
    ensures DistinctKeys(t) ==> DistinctKeys(t + [(k, v)])
  {
    ConcatGet(t, [(k, v)], k);
    forall k' | k' != k ensures Get(t + [(k, v)], k') == Get(t, k') {
      ConcatGet(t, [(k, v)], k');
    }
  }

  /** apr_table_set of a key whose first entry is at position i. */
  lemma SetReplaces(t: Table, i: nat, k: string, v: string)
    requires i < |t| && t[i].0 == k && forall j :: 0 <= j < i ==> t[j].0 != k
    ensures var r := t[..i] + [(k, v)] + Without(t[i + 1..], k);
      && Get(r, k) == Some(v)
      && (forall k' :: k' != k ==> Get(r, k') == Get(t, k'))
      && (DistinctKeys(t) ==> DistinctKeys(r) && |r| == |t|)
  {
    var w := Without(t[i + 1..], k);
    var r := t[..i] + [(k, v)] + w;
    assert r == t[..i] + ([(k, v)] + w);
    ConcatGet(t[..i], [(k, v)] + w, k);
    forall k' | k' != k ensures Get(r, k') == Get(t, k') {
      SetOtherKey(t, i, k, v, k');
    }
    if DistinctKeys(t) {
      ReplaceKeepsKeys(t, i, k, v);
    }
  }

  lemma ReplaceKeepsKeys(t: Table, i: nat, k: string, v: string)
    requires DistinctKeys(t) && i < |t| && t[i].0 == k
    ensures var r := t[..i] + [(k, v)] + Without(t[i + 1..], k);
      DistinctKeys(r) && |r| == |t|
  {
    var s := t[i + 1..];
    forall j | 0 <= j < |s| ensures s[j].0 != k {
      assert s[j] == t[i + 1 + j];
    }
    WithoutAbsent(s, k);
    SpliceIsUpdate(t, i, (k, v));
    UpdateKeepsDistinct(t, i, (k, v));
  }

  lemma SpliceIsUpdate(t: Table, i: nat, e: Entry)
    requires i < |t|
    ensures t[..i] + [e] + t[i + 1..] == t[i := e]
  {
  }

  lemma UpdateKeepsDistinct(t: Table, i: nat, e: Entry)
    requires DistinctKeys(t) && i < |t| && e.0 == t[i].0
    ensures DistinctKeys(t[i := e])
  {
    var u := t[i := e];
    forall a, b | 0 <= a < b < |u| ensures u[a].0 != u[b].0 {
      assert u[a].0 == t[a].0 && u[b].0 == t[b].0;
    }
  }

  lemma {:induction false} WithoutAbsent(t: Table, k: string)
    requires forall j :: 0 <= j < |t| ==> t[j].0 != k
    ensures Without(t, k) == t
  {
    if t != [] {
      WithoutAbsent(t[1..], k);
      assert t == [t[0]] + t[1..];
    }
  }

  lemma SetOtherKey(t: Table, i: nat, k: string, v: string, k': string)
    requires i < |t| && t[i].0 == k && forall j :: 0 <= j < i ==> t[j].0 != k
    requires k' != k
    ensures Get(t[..i] + [(k, v)] + Without(t[i + 1..], k), k') == Get(t, k')
  {
    var p, s, w := t[..i], t[i + 1..], Without(t[i + 1..], k);
    assert t == p + ([t[i]] + s);
    assert p + [(k, v)] + w == p + ([(k, v)] + w);
    ConcatGet(p, [t[i]] + s, k');
    ConcatGet(p, [(k, v)] + w, k');
    ConsOtherKey(t[i], s, k');
    ConsOtherKey((k, v), w, k');
    WithoutGet(s, k, k');
  }

  /** A lookup in p + s sees p first. */
  lemma {:induction false} ConcatGet(p: Table, s: Table, k': string)
    ensures Get(p + s, k') == if Get(p, k').Some? then Get(p, k') else Get(s, k')
  {
    if p == [] {
      assert p + s == s;
    } else if p[0].0 == k' {
      assert (p + s)[0] == p[0];
    } else {
      assert (p + s)[1..] == p[1..] + s;
      ConcatGet(p[1..], s, k');
      assert p == [p[0]] + p[1..];
      assert p + s == [p[0]] + (p[1..] + s);
      ConsOtherKey(p[0], p[1..], k');
      ConsOtherKey(p[0], p[1..] + s, k');
    }
  }

  /** A lookup skips a leading entry for another key. */
  lemma ConsOtherKey(e: Entry, s: Table, k': string)
    requires e.0 != k'
    ensures Get([e] + s, k') == Get(s, k')
  {
    assert ([e] + s)[1..] == s;
  }

  /** Dropping the entries with key k does not change a lookup of another key. */
  lemma {:induction false} WithoutGet(t: Table, k: string, k': string)
    requires k' != k
    ensures Get(Without(t, k), k') == Get(t, k')
  {
    if t != [] {
      WithoutGet(t[1..], k, k');
      assert t == [t[0]] + t[1..];
      if t[0].0 == k {
        ConsOtherKey(t[0], t[1..], k');
      } else if t[0].0 != k' {
        ConsOtherKey(t[0], t[1..], k');
        ConsOtherKey(t[0], Without(t[1..], k), k');
      }
    }
  }

  /** The table viewed as a map; the first entry for a key is the one a lookup sees. */
  function ToMap(t: Table): (m: map<string, string>)
    ensures forall k :: k in m <==> Get(t, k).Some?
    ensures forall k :: k in m ==> Get(t, k) == Some(m[k])
  {
    if t == [] then map[] else ToMap(t[1..])[t[0].0 := t[0].1]
  }
}
