/**
 * Rendering and parsing together: "query=" followed by a rendered
 * objectname parses back to that objectname when nothing in it collides
 * with the query syntax, and the rendered form of a table with no
 * printed constraint comes back as a NULL table.
 */
module RoundTrip {
  import opened Wrappers
  import opened AprTable
  import opened Bmx
  import opened QueryParser
  import opened ObjectnameFormat

  /** Characters a constraint key may hold and still come back intact. */
  predicate PlainKey(k: string) {
    forall i :: 0 <= i < |k| ==> k[i] != ',' && k[i] != '=' && k[i] != '\0' && !IsSpace(k[i])
  }

  /** Characters a constraint value may hold; '=' is allowed, since only a token's first '=' splits it. */
  predicate PlainValue(v: string) {
    forall i :: 0 <= i < |v| ==> v[i] != ',' && v[i] != '\0' && !IsSpace(v[i])
  }

  /**
   * An objectname whose rendered text parses back: a domain of at most
   * 128 characters without ':', a non-empty table with distinct plain
   * keys and plain values whose text has at most 1024 characters, and a
   * first key that does not begin with "*&" (which reads as "no constraints").
   */
  predicate Parsable(on: Objectname) {
    && on.domain.Some? && on.props.Some? && on.props.value != []
    && var d := on.domain.value;
       var t := on.props.value;
       && d != [] && ':' !in d && '\0' !in d && |d| <= MaxDomainLen
       && DistinctKeys(t)
       && (forall i :: 0 <= i < |t| ==> PlainKey(t[i].0) && PlainValue(t[i].1))
       && !(|t[0].0| >= 2 && t[0].0[0] == '*' && t[0].0[1] == '&')
       && |Pairs(t)| <= MaxConstraintsLen
  }

  /** The texts the tokenizer should find: one "key=value" per entry. */
  function Texts(t: Table): (ts: seq<string>)
    ensures |ts| == |t|
  {
    if t == [] then [] else [EntryText(t[0])] + Texts(t[1..])
  }

  lemma {:induction false} PairsAvoids(t: Table, x: char)
    requires x != ',' && x != '='
    requires forall i :: 0 <= i < |t| ==> x !in t[i].0 && x !in t[i].1
    ensures x !in Pairs(t)
    decreases |t|
  {
    if |t| >= 1 {
      assert x !in t[0].0 && x !in t[0].1;
      assert x !in EntryText(t[0]);
    }
    if |t| >= 2 {
      assert forall i :: 0 <= i < |t[1..]| ==> t[1..][i] == t[i + 1];
      PairsAvoids(t[1..], x);
    }
  }

  /** A plain entry's text has no ',' and splits back into the entry. */
  lemma EntryTextSplits(e: Entry)
    requires PlainKey(e.0) && PlainValue(e.1)
    ensures ',' !in EntryText(e)
    ensures SplitToken(EntryText(e)) == e
  {
    var s := EntryText(e);
    assert s[..|e.0|] == e.0 && s[|e.0|] == '=' && s[|e.0| + 1..] == e.1;
    SpanNotIs(s, '=', |e.0|);
    assert forall i :: 0 <= i < |s| ==> s[i] != ',' by {
      forall i | 0 <= i < |s| ensures s[i] != ',' {
        if i < |e.0| {
          assert s[i] == e.0[i];
        } else if i > |e.0| {
          assert s[i] == e.1[i - |e.0| - 1];
        }
      }
    }
  }

  lemma TokensOfOne(s: string)
    requires s != [] && ',' !in s
    ensures Tokens(s) == [s]
  {
    SpanNotIs(s, ',', |s|);
    assert s[..|s|] == s;
    assert s[|s|..] == [];
  }

  lemma TokensOfJoin(s: string, rest: string)
    requires s != [] && ',' !in s
    ensures Tokens(s + "," + rest) == [s] + Tokens(rest)
  {
    var a := s + "," + rest;
    assert a[..|s|] == s;
    SpanNotIs(a, ',', |s|);
    assert a[|s|..][1..] == rest;
  }

  /** The tokenizer finds exactly the entries' texts in the rendered pairs. */
  lemma {:induction false} TokensOfPairs(t: Table)
    requires forall i :: 0 <= i < |t| ==> PlainKey(t[i].0) && PlainValue(t[i].1)
    ensures Tokens(Pairs(t)) == Texts(t)
    decreases |t|
  {
    if t != [] {
      EntryTextSplits(t[0]);
      if |t| == 1 {
        TokensOfOne(EntryText(t[0]));
      } else {
        TokensOfJoin(EntryText(t[0]), Pairs(t[1..]));
        assert forall i :: 0 <= i < |t[1..]| ==> t[1..][i] == t[i + 1];
        TokensOfPairs(t[1..]);
      }
    }
  }

  /** Setting the texts of new distinct keys appends their entries in order. */
  lemma {:induction false} SetTextsAppends(acc: Table, t: Table)
    requires DistinctKeys(acc + t)
    requires forall i :: 0 <= i < |t| ==> PlainKey(t[i].0) && PlainValue(t[i].1)
    ensures SetTokens(acc, Texts(t)) == acc + t
    decreases |t|
  {
    if t != [] {
      EntryTextSplits(t[0]);
      var e := t[0];
      assert forall i :: 0 <= i < |acc| ==> acc[i].0 != e.0 by {
        forall i | 0 <= i < |acc| ensures acc[i].0 != e.0 {
          assert (acc + t)[i] == acc[i] && (acc + t)[|acc|] == e;
        }
      }
      assert Get(acc, e.0).None?;
      assert Set(acc, e.0, e.1) == acc + [e];
      assert acc + t == (acc + [e]) + t[1..];
      assert forall i :: 0 <= i < |t[1..]| ==> t[1..][i] == t[i + 1];
      assert Texts(t)[1..] == Texts(t[1..]);
      SetTextsAppends(acc + [e], t[1..]);
    }
  }

  lemma PairsStart(t: Table)
    requires t != []
    ensures |Pairs(t)| > |t[0].0| && Pairs(t)[..|t[0].0| + 1] == t[0].0 + "="
  {
    var s := EntryText(t[0]);
    assert s[..|t[0].0| + 1] == t[0].0 + "=";
    if |t| > 1 {
      assert Pairs(t) == s + ("," + Pairs(t[1..]));
    }
  }

  /** The rendered pairs of a parsable table carry no whitespace and no NUL. */
  lemma PairsPlain(t: Table)
    requires forall i :: 0 <= i < |t| ==> PlainKey(t[i].0) && PlainValue(t[i].1)
    ensures NoSpace(Pairs(t)) && '\0' !in Pairs(t)
  {
    forall x | x == '\0' || IsSpace(x) ensures x !in Pairs(t) {
      forall i | 0 <= i < |t| ensures x !in t[i].0 && x !in t[i].1 {
        assert PlainKey(t[i].0) && PlainValue(t[i].1);
      }
      PairsAvoids(t, x);
    }
  }

  /** The text sscanf sees in a parsable objectname's query: the domain, ':' and the pairs. */
  lemma RenderedScan(on: Objectname)
    requires Parsable(on)
    ensures var a := QueryPrefix + Render(on);
            Scan(a) == Some((on.domain.value, Pairs(on.props.value)))
  {
    var d := on.domain.value;
    var c := Pairs(on.props.value);
    PairsStart(on.props.value);
    PairsPlain(on.props.value);
    assert QueryPrefix + Render(on) == QueryPrefix + d + ":" + c;
    DomainPairsScan(d, c);
  }

  /** sscanf reads back a plain domain and a plain constraint text joined by ':'. */
  lemma DomainPairsScan(d: string, c: string)
    requires d != [] && ':' !in d && |d| <= MaxDomainLen
    requires c != [] && NoSpace(c) && |c| <= MaxConstraintsLen
    ensures Scan(QueryPrefix + d + ":" + c) == Some((d, c))
  {
    var a := QueryPrefix + d + ":" + c;
    assert a == QueryPrefix + d + ":" + "" + c + "";
    ScanAccepts(a, d, "", c, "");
  }

  /** A parsable objectname's query is not the "query=*:*" shortcut. */
  lemma RenderedNotShortcut(on: Objectname)
    requires Parsable(on)
    ensures QueryPrefix + Render(on) != AllQuery
  {
    var d := on.domain.value;
    var t := on.props.value;
    var a := QueryPrefix + Render(on);
    PairsStart(t);
    assert a == QueryPrefix + d + ":" + Pairs(t);
    var j := |QueryPrefix| + |d| + 1 + |t[0].0|;
    assert a[j] == Pairs(t)[|t[0].0|] == '=';
    assert forall k :: |QueryPrefix| <= k < |AllQuery| ==> AllQuery[k] != '=';
  }

  /** A parsable table's pairs are not the "no constraints" form and give back the table. */
  lemma RenderedConstraints(t: Table)
    requires t != [] && DistinctKeys(t)
    requires forall i :: 0 <= i < |t| ==> PlainKey(t[i].0) && PlainValue(t[i].1)
    requires !(|t[0].0| >= 2 && t[0].0[0] == '*' && t[0].0[1] == '&')
    ensures Constraints(Pairs(t)) == Some(t)
  {
    var c := Pairs(t);
    PairsStart(t);
    assert !IsStarConstraints(c) by {
      if |t[0].0| == 0 {
        assert c[0] == '=';
      } else if |t[0].0| == 1 {
        assert c[1] == '=';
      } else {
        assert c[0] == t[0].0[0] && c[1] == t[0].0[1];
      }
    }
    TokensOfPairs(t);
    assert [] + t == t;
    SetTextsAppends([], t);
  }

  /**
   * "query=" and a parsable objectname's text are accepted by parse_query,
   * which returns that same objectname.
   */
  lemma ParseRendered(on: Objectname)
    requires Parsable(on)
    ensures QueryOf(Some(QueryPrefix + Render(on))) == Some(Named(on))
  {
    RenderedScan(on);
    RenderedNotShortcut(on);
    RenderedConstraints(on.props.value);
  }

  /**
   * An objectname with a NULL table, or a present empty one, renders as
   * "domain:*", which parses back to a NULL table: the empty table does
   * not survive the trip.
   */
  lemma StarRendersToNullTable(on: Objectname)
    requires on.props.None? || on.props == Some([])
    requires on.domain.Some? && on.domain.value != "*" && on.domain.value != [] && ':' !in on.domain.value
    requires |on.domain.value| <= MaxDomainLen
    ensures QueryOf(Some(QueryPrefix + Render(on))) == Some(Named(Objectname(on.domain, None)))
  {
    assert QueryPrefix + Render(on) == QueryPrefix + on.domain.value + ":*";
    DomainStarHasNoTable(on.domain.value);
  }
}
