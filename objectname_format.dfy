/**
 * Objectname rendering in mod_bmx.c: bmx_objectname_strlen, which predicts
 * the length, and bmx_objectname_str, which writes "domain:k1=v1,k2=v2"
 * into a caller's buffer.
 */
module ObjectnameFormat {
  import opened Wrappers
  import opened AprTable
  import opened Bmx

  /** One constraint as printed: "key=value". */
  function EntryText(e: Entry): (s: string)
    ensures |s| == |e.0| + 1 + |e.1|
  {
    e.0 + "=" + e.1
  }

  /** The constraints in table order, "k1=v1,k2=v2". */
  function Pairs(t: Table): string {
    if t == [] then ""
    else if |t| == 1 then EntryText(t[0])
    else EntryText(t[0]) + "," + Pairs(t[1..])
  }

  /** "domain:" or, for a NULL domain, "*:". */
  function DomainText(on: Objectname): string {
    if on.domain.Some? then on.domain.value + ":" else "*:"
  }

  /** The constraint part; "*" when no constraint is printed. */
  function ConstraintText(on: Objectname): string {
    if on.props.None? || on.props.value == [] then "*" else Pairs(on.props.value)
  }

  /** The text of an objectname. */
  function Render(on: Objectname): string {
    DomainText(on) + ConstraintText(on)
  }

  /** Whether bmx_objectname_str ends its output with a NUL: only the last pair's snprintf writes one. */
  predicate WritesTerminator(on: Objectname) {
    on.props.Some? && on.props.value != []
  }

  /** Adding an entry at the end of the table adds ",key=value" (or "key=value" to an empty table). */
  lemma {:induction false} PairsSnoc(t: Table, e: Entry)
    ensures Pairs(t + [e]) == Pairs(t) + (if t == [] then "" else ",") + EntryText(e)
    decreases |t|
  {
    if |t| >= 2 {
      assert (t + [e])[1..] == t[1..] + [e];
      PairsSnoc(t[1..], e);
    } else if |t| == 1 {
      assert (t + [e])[1..] == [e];
    }
  }

  lemma PairsEmpty(t: Table)
    ensures Pairs(t) == [] <==> t == []
  {
    if t != [] {
      assert |EntryText(t[0])| >= 1;
    }
  }

  lemma {:induction false} PairsPrefixLength(t: Table, j: nat)
    requires j <= |t|
    ensures |Pairs(t[..j])| <= |Pairs(t)|
    decreases |t| - j
  {
    if j < |t| {
      PairsSnoc(t[..j], t[j]);
      assert t[..j + 1] == t[..j] + [t[j]];
      PairsPrefixLength(t, j + 1);
    } else {
      assert t[..j] == t;
    }
  }

  /**
   * bmx_objectname_strlen: the domain and ':' (or "*:"), then the pairs
   * the table iterator counts, or 1 for "*" when it counted nothing. The
   * result is the length of the rendered text.
   */
  method ObjectnameStrlen(on: Objectname) returns (sz: nat)
    ensures sz == |Render(on)|
  {
    sz := 0;
    if on.domain.Some? {
      sz := sz + |on.domain.value| + 1;
    } else {
      sz := sz + 2;
    }
    if on.props.Some? {
      var t := on.props.value;
      var first := true;
      var dataSz := 0;
      var i := 0;
      while i < |t|
        invariant i <= |t|
        invariant first <==> i == 0
        invariant dataSz == |Pairs(t[..i])|
      {
        dataSz := dataSz + |t[i].0|;
        if first {
          first := false;
          dataSz := dataSz + 1;
        } else {
          dataSz := dataSz + 2;
        }
        dataSz := dataSz + |t[i].1|;
        PairsSnoc(t[..i], t[i]);
        assert t[..i + 1] == t[..i] + [t[i]];
        i := i + 1;
      }
      assert t[..i] == t;
      PairsEmpty(t);
      if dataSz == 0 {
        sz := sz + 1;
      } else {
        sz := sz + dataSz;
      }
    } else {
      sz := sz + 1;
    }
  }

  /**
   * apr_snprintf(buf + p, room, "%s", piece) with room enough: the piece,
   * then a NUL; the rest of the buffer is untouched.
   */
  method Emit(buf: array<char>, p: nat, piece: string)
    requires p + |piece| < buf.Length
    modifies buf
    ensures forall k :: 0 <= k < buf.Length ==>
              buf[k] == if p <= k < p + |piece| then piece[k - p]
                        else if k == p + |piece| then '\0' else old(buf[k])
    ensures buf[..p + |piece|] == old(buf[..p]) + piece
  {
    var j := 0;
    while j < |piece|
      invariant j <= |piece|
      invariant forall k :: 0 <= k < buf.Length ==>
                  buf[k] == if p <= k < p + j then piece[k - p] else old(buf[k])
    {
      buf[p + j] := piece[j];
      j := j + 1;
    }
    buf[p + |piece|] := '\0';
    assert buf[..p + |piece|] == old(buf[..p]) + piece by {
      forall k | 0 <= k < p + |piece| ensures buf[..p + |piece|][k] == (old(buf[..p]) + piece)[k] {
      }
    }
  }

  /**
   * The buffer after bmx_objectname_str: the rendered text, then a NUL
   * only when the last write was a pair's snprintf; every other byte as
   * it was.
   */
  function StrBuffer(on: Objectname, init: seq<char>): (b: seq<char>)
    requires |init| > |Render(on)|
    ensures |b| == |init|
  {
    var n := |Render(on)|;
    Render(on) + [if WritesTerminator(on) then '\0' else init[n]] + init[n + 1..]
  }

  /**
   * The table walk of bmx_objectname_str from position p: each pair's
   * snprintf writes ",key=value" (no comma for the first) and a NUL.
   */
  method WritePairs(buf: array<char>, p: nat, t: Table) returns (q: nat)
    requires p + |Pairs(t)| < buf.Length
    modifies buf
    ensures q == p + |Pairs(t)|
    ensures forall k :: 0 <= k < buf.Length ==>
              buf[k] == if p <= k < q then Pairs(t)[k - p]
                        else if k == q && t != [] then '\0' else old(buf[k])
  {
    ghost var init := buf[..];
    var i := 0;
    q := p;
    while i < |t|
      invariant i <= |t|
      invariant q == p + |Pairs(t[..i])|
      invariant forall k :: 0 <= k < buf.Length ==>
                  buf[k] == if p <= k < q then Pairs(t[..i])[k - p]
                            else if k == q && i > 0 then '\0' else init[k]
    {
      q := EmitEntry(buf, p, q, t, i, init);
      i := i + 1;
    }
    assert t[..i] == t;
  }

  /** One turn of the table walk: the i-th pair, preceded by ',' after the first. */
  method EmitEntry(buf: array<char>, p: nat, q: nat, t: Table, i: nat, ghost init: seq<char>) returns (q': nat)
    requires i < |t| && p + |Pairs(t)| < buf.Length && |init| == buf.Length
    requires q == p + |Pairs(t[..i])|
    requires forall k :: 0 <= k < buf.Length ==>
               buf[k] == if p <= k < q then Pairs(t[..i])[k - p]
                         else if k == q && i > 0 then '\0' else init[k]
    modifies buf
    ensures q' == p + |Pairs(t[..i + 1])|
    ensures forall k :: 0 <= k < buf.Length ==>
              buf[k] == if p <= k < q' then Pairs(t[..i + 1])[k - p]
                        else if k == q' then '\0' else init[k]
  {
    PairsPrefixLength(t, i + 1);
    PairsSnoc(t[..i], t[i]);
    assert t[..i + 1] == t[..i] + [t[i]];
    var piece := (if i == 0 then "" else ",") + EntryText(t[i]);
    assert Pairs(t[..i + 1]) == Pairs(t[..i]) + piece;
    Emit(buf, q, piece);
    q' := q + |piece|;
  }

  /** The first write of bmx_objectname_str: "domain:" or, for a NULL domain, "*:". */
  method WriteDomain(on: Objectname, buf: array<char>) returns (p: nat)
    requires buf.Length > |DomainText(on)|
    modifies buf
    ensures p == |DomainText(on)|
    ensures forall k :: 0 <= k < p ==> buf[k] == DomainText(on)[k]
    ensures forall k :: p < k < buf.Length ==> buf[k] == old(buf[k])
  {
    if on.domain.Some? {
      Emit(buf, 0, on.domain.value + ":");
      p := |on.domain.value| + 1;
    } else {
      buf[0] := '*';
      buf[1] := ':';
      p := 2;
    }
  }

  /**
   * bmx_objectname_str with a buffer of at least strlen + 1 bytes. The
   * returned count is the rendered length, and the buffer holds the
   * rendered text; a trailing '*' is not followed by a NUL.
   */
  method ObjectnameStr(on: Objectname, buf: array<char>) returns (n: nat)
    requires buf.Length > |Render(on)|
    modifies buf
    ensures n == |Render(on)|
    ensures buf[..] == StrBuffer(on, old(buf[..]))
  {
    ghost var init := buf[..];
    var p := WriteDomain(on, buf);
    ghost var prefix := DomainText(on);
    if on.props.Some? && on.props.value != [] {
      var t := on.props.value;
      PairsEmpty(t);
      n := WritePairs(buf, p, t);
    } else {
      if on.props.Some? {
        n := WritePairs(buf, p, []);
      }
      buf[p] := '*';
      n := p + 1;
    }
    ghost var r := StrBuffer(on, init);
    assert |r| == buf.Length;
    forall k | 0 <= k < buf.Length
      ensures buf[k] == r[k]
    {
      if k < p {
        assert r[k] == prefix[k];
      } else if k < n {
        assert r[k] == ConstraintText(on)[k - p];
      }
    }
    assert buf[..] == r;
  }
}
