/**
 * parse_query of mod_bmx.c: the text after '?' in a request URI becomes
 * either the wildcard query or a domain plus an optional constraint table.
 */
module QueryParser {
  import opened Wrappers
  import opened AprTable
  import opened Bmx

  const QueryPrefix := "query="
  /** ALL_QUERY; strncmp compares it together with its NUL, so only this exact text is the shortcut. */
  const AllQuery := "query=*:*"
  /** MAX_DOMAIN_LEN and MAX_CONSTRAINTS_LEN: the field widths of the sscanf format. */
  const MaxDomainLen := 128
  const MaxConstraintsLen := 1024
  /**
   * The sizes the two sscanf target buffers need: a conversion of width w
   * stores up to w characters and then a NUL.
   */
  const DomainBufferSize := MaxDomainLen + 1
  const ConstraintsBufferSize := MaxConstraintsLen + 1

  /** isspace in the C locale: space, \t, \n, \v, \f and \r. */
  predicate IsSpace(ch: char) {
    ch == ' ' || '\t' <= ch <= '\r'
  }

  predicate AllSpace(s: string) {
    forall i :: 0 <= i < |s| ==> IsSpace(s[i])
  }

  predicate NoSpace(s: string) {
    forall i :: 0 <= i < |s| ==> !IsSpace(s[i])
  }

  /** Length of the longest prefix of s without the character x. */
  function SpanNot(s: string, x: char): (n: nat)
    ensures n <= |s| && x !in s[..n]
    ensures n < |s| ==> s[n] == x
  {
    if s == [] || s[0] == x then 0 else 1 + SpanNot(s[1..], x)
  }

  /** Length of the longest all-whitespace prefix of s. */
  function SpanSpace(s: string): (n: nat)
    ensures n <= |s| && AllSpace(s[..n])
    ensures n < |s| ==> !IsSpace(s[n])
  {
    if s == [] || !IsSpace(s[0]) then 0 else 1 + SpanSpace(s[1..])
  }

  /** Length of the longest whitespace-free prefix of s. */
  function SpanNonSpace(s: string): (n: nat)
    ensures n <= |s| && NoSpace(s[..n])
    ensures n < |s| ==> IsSpace(s[n])
  {
    if s == [] || IsSpace(s[0]) then 0 else 1 + SpanNonSpace(s[1..])
  }

  /** What %s sees: the text with its leading whitespace skipped. */
  function SkipSpace(s: string): string {
    s[SpanSpace(s)..]
  }

  /**
   * The %1024s conversion: skip whitespace, then take a non-empty
   * whitespace-free word of at most 1024 characters; what follows is left
   * unread.
   */
  function Word(s: string): (r: Option<string>)
    ensures r.Some? ==> r.value != [] && NoSpace(r.value) && |r.value| <= MaxConstraintsLen
  {
    var tail := SkipSpace(s);
    var n := SpanNonSpace(tail);
    if n == 0 then None
    else if n <= MaxConstraintsLen then Some(tail[..n])
    else Some(tail[..MaxConstraintsLen])
  }

  /**
   * "%128[^:]:%1024s" applied to the text after "query=". A domain run
   * longer than 128 characters stops the %[^:] conversion at a character
   * other than ':', so the literal ':' does not match and only one field
   * is converted.
   */
  function ScanRest(rest: string): (r: Option<(string, string)>)
    ensures r.Some? ==> && r.value.0 != [] && ':' !in r.value.0 && |r.value.0| <= MaxDomainLen
                        && r.value.1 != [] && NoSpace(r.value.1) && |r.value.1| <= MaxConstraintsLen
  {
    var d := SpanNot(rest, ':');
    if d == 0 || d == |rest| || d > MaxDomainLen then None
    else match Word(rest[d + 1..])
      case None => None
      case Some(w) => Some((rest[..d], w))
  }

  function HasQueryPrefix(a: string): bool {
    |a| >= |QueryPrefix| && a[..|QueryPrefix|] == QueryPrefix
  }

  /**
   * sscanf(args, "query=%128[^:]:%1024s", domain, constraints) == 2,
   * returning the two converted strings. The conversion %[^:] needs at
   * least one character; %s skips whitespace and needs at least one
   * non-whitespace character.
   */
  function Scan(a: string): (r: Option<(string, string)>)
    ensures r.Some? ==> && r.value.0 != [] && ':' !in r.value.0 && |r.value.0| <= MaxDomainLen
                        && r.value.1 != [] && NoSpace(r.value.1) && |r.value.1| <= MaxConstraintsLen
  {
    if HasQueryPrefix(a) then ScanRest(a[|QueryPrefix|..]) else None
  }

  /**
   * The bytes each conversion stores when sscanf converts both fields:
   * the converted characters and a terminating NUL.
   */
  function StoredBytes(a: string): (r: Option<(nat, nat)>)
    requires Scan(a).Some?
    ensures r.Some? && r.value.0 >= 2 && r.value.1 >= 2
  {
    Some((|Scan(a).value.0| + 1, |Scan(a).value.1| + 1))
  }

  /**
   * As written, parse_query declares the buffers with MAX_DOMAIN_LEN and
   * MAX_CONSTRAINTS_LEN bytes, the same numbers as the field widths: a
   * 128-character domain is accepted and stored in 129 bytes.
   */
  lemma DomainBufferOverflow()
    ensures var a := QueryPrefix + seq(MaxDomainLen, _ => 'a') + ":x";
            && Scan(a) == Some((seq(MaxDomainLen, _ => 'a'), "x"))
            && StoredBytes(a).value.0 > MaxDomainLen
  {
    var d := seq(MaxDomainLen, _ => 'a');
    var a := QueryPrefix + d + ":x";
    ScanAccepts(a, d, "", "x", "");
  }

  /** The same for a 1024-character constraint word: it is stored in 1025 bytes. */
  lemma ConstraintsBufferOverflow()
    ensures var a := QueryPrefix + "d:" + seq(MaxConstraintsLen, _ => 'c');
            && Scan(a) == Some(("d", seq(MaxConstraintsLen, _ => 'c')))
            && StoredBytes(a).value.1 > MaxConstraintsLen
  {
    var c := seq(MaxConstraintsLen, _ => 'c');
    var a := QueryPrefix + "d:" + c;
    assert a == QueryPrefix + "d" + ":" + "" + c + "";
    ScanAccepts(a, "d", "", c, "");
  }

  /** A domain run longer than 128 characters is rejected with APR_EINVAL. */
  lemma LongDomainRejected(d: string, after: string)
    requires |d| > MaxDomainLen && ':' !in d
    ensures QueryOf(Some(QueryPrefix + d + ":" + after)).None?
  {
    var a := QueryPrefix + d + ":" + after;
    var rest := d + ":" + after;
    assert a[..|QueryPrefix|] == QueryPrefix && a[|QueryPrefix|..] == rest;
    assert rest[..|d|] == d;
    SpanNotIs(rest, ':', |d|);
  }

  /** With buffers one byte larger than the field widths, every conversion fits. */
  lemma ScanFitsBuffers(a: string)
    requires Scan(a).Some?
    ensures StoredBytes(a).value.0 <= DomainBufferSize
    ensures StoredBytes(a).value.1 <= ConstraintsBufferSize
  {
  }

  /**
   * apr_strtok(s, ",", ...) repeated until it returns NULL: the maximal
   * non-empty runs of characters other than ','.
   */
  function Tokens(s: string): (ts: seq<string>)
    ensures forall i :: 0 <= i < |ts| ==> ts[i] != [] && ',' !in ts[i]
    decreases |s|
  {
    if s == [] then []
    else if s[0] == ',' then Tokens(s[1..])
    else
      var n := SpanNot(s, ',');
      [s[..n]] + Tokens(s[n..])
  }

  /** A token split at its first '='; a token without '=' has value "". */
  function SplitToken(tok: string): (e: Entry)
    ensures '=' !in e.0
    ensures '=' in tok ==> tok == e.0 + "=" + e.1
    ensures '=' !in tok ==> e == (tok, "")
  {
    var i := SpanNot(tok, '=');
    if i < |tok| then
      assert tok == tok[..i] + "=" + tok[i + 1..];
      (tok[..i], tok[i + 1..])
    else
      assert tok[..i] == tok;
      (tok, "")
  }

  /** apr_table_set for each token in turn, starting from t. */
  function SetTokens(t: Table, toks: seq<string>): (r: Table)
    ensures DistinctKeys(t) ==> DistinctKeys(r)
    decreases toks
  {
    if toks == [] then t
    else
      var e := SplitToken(toks[0]);
      SetTokens(Set(t, e.0, e.1), toks[1..])
  }

  /** "*" or text starting with "*&" means "no constraints". */
  predicate IsStarConstraints(c: string) {
    |c| >= 1 && c[0] == '*' && (|c| == 1 || c[1] == '&')
  }

  /** The constraint table parse_query builds from the converted constraints text. */
  function Constraints(c: string): Option<Table> {
    if IsStarConstraints(c) then None else Some(SetTokens([], Tokens(c)))
  }

  /**
   * The query parse_query produces for the request's args (None: absent),
   * or None when it returns APR_EINVAL.
   */
  function QueryOf(args: Option<string>): Option<Query> {
    if args.None? || args.value == [] || args.value == AllQuery then Some(QueryAll)
    else match Scan(args.value)
      case None => None
      case Some((d, c)) => Some(Named(Objectname(Some(d), Constraints(c))))
  }

  /**
   * The tokenizing loop of parse_query: skip separators, take the next
   * run up to ',' and set its key and value in the table. `last` is the
   * text apr_strtok has not consumed yet.
   */
  method ParseConstraints(c: string) returns (props: Option<Table>)
    ensures props == Constraints(c)
    ensures props.Some? ==> DistinctKeys(props.value)
  {
    if IsStarConstraints(c) {
      return None;
    }
    var table: Table := [];
    var last := c;
    ghost var goal := SetTokens([], Tokens(c));
    while last != []
      invariant DistinctKeys(table)
      invariant SetTokens(table, Tokens(last)) == goal
      decreases |last|
    {
      if last[0] == ',' {
        SetTokensSkip(table, last);
        last := last[1..];
      } else {
        var n := SpanNot(last, ',');
        var token := last[..n];
        SetTokensTake(table, last);
        var kv := SplitToken(token);
        table := Set(table, kv.0, kv.1);
        last := last[n..];
      }
    }
    props := Some(table);
  }

  lemma SetTokensSkip(t: Table, s: string)
    requires s != [] && s[0] == ','
    ensures SetTokens(t, Tokens(s)) == SetTokens(t, Tokens(s[1..]))
  {
  }

  lemma SetTokensTake(t: Table, s: string)
    requires s != [] && s[0] != ','
    ensures var n := SpanNot(s, ',');
            var e := SplitToken(s[..n]);
            n > 0 && SetTokens(t, Tokens(s)) == SetTokens(Set(t, e.0, e.1), Tokens(s[n..]))
  {
    var n := SpanNot(s, ',');
    assert Tokens(s) == [s[..n]] + Tokens(s[n..]);
    assert Tokens(s)[1..] == Tokens(s[n..]);
  }

  /** parse_query: APR_SUCCESS with the query, or APR_EINVAL. */
  method ParseQuery(args: Option<string>) returns (rv: int, query: Option<Query>)
    ensures query == QueryOf(args)
    ensures rv == APR_SUCCESS <==> query.Some?
    ensures rv != APR_SUCCESS ==> rv == APR_EINVAL
  {
    if args.None? || args.value == [] {
      return APR_SUCCESS, Some(QueryAll);
    }
    if args.value == AllQuery {
      return APR_SUCCESS, Some(QueryAll);
    }
    var scanned := Scan(args.value);
    if scanned.None? {
      return APR_EINVAL, None;
    }
    var props := ParseConstraints(scanned.value.1);
    return APR_SUCCESS, Some(Named(Objectname(Some(scanned.value.0), props)));
  }

  /** Uniqueness of the spans: any n with the span's two properties is the span. */
  lemma {:induction false} SpanNotIs(s: string, x: char, n: nat)
    requires n <= |s| && x !in s[..n] && (n < |s| ==> s[n] == x)
    ensures SpanNot(s, x) == n
  {
    if n > 0 {
      assert s[..n][0] != x;
      assert s[1..][..n - 1] == s[..n][1..];
      SpanNotIs(s[1..], x, n - 1);
    }
  }

  lemma {:induction false} SpanSpaceIs(s: string, n: nat)
    requires n <= |s| && AllSpace(s[..n]) && (n < |s| ==> !IsSpace(s[n]))
    ensures SpanSpace(s) == n
  {
    if n > 0 {
      assert IsSpace(s[..n][0]);
      assert s[1..][..n - 1] == s[..n][1..];
      SpanSpaceIs(s[1..], n - 1);
    }
  }

  lemma {:induction false} SpanNonSpaceIs(s: string, n: nat)
    requires n <= |s| && NoSpace(s[..n]) && (n < |s| ==> IsSpace(s[n]))
    ensures SpanNonSpace(s) == n
  {
    if n > 0 {
      assert !IsSpace(s[..n][0]);
      assert s[1..][..n - 1] == s[..n][1..];
      SpanNonSpaceIs(s[1..], n - 1);
    }
  }

  /**
   * The shape sscanf accepts: "query=", a non-empty domain of at most 128
   * characters without ':', ':', optional whitespace, a non-empty
   * whitespace-free word of at most 1024 characters, and the unread rest,
   * which starts with whitespace unless the word took all 1024 characters.
   */
  predicate Form(a: string, d: string, sp: string, tok: string, more: string) {
    && a == QueryPrefix + d + ":" + sp + tok + more
    && d != [] && ':' !in d && |d| <= MaxDomainLen
    && AllSpace(sp)
    && tok != [] && NoSpace(tok) && |tok| <= MaxConstraintsLen
    && (more == [] || IsSpace(more[0]) || |tok| == MaxConstraintsLen)
  }

  ghost predicate WellFormed(a: string) {
    exists d, sp, tok, more :: Form(a, d, sp, tok, more)
  }

  lemma WordAccepts(sp: string, tok: string, more: string)
    requires AllSpace(sp) && tok != [] && NoSpace(tok) && |tok| <= MaxConstraintsLen
    requires more == [] || IsSpace(more[0]) || |tok| == MaxConstraintsLen
    ensures Word(sp + tok + more) == Some(tok)
  {
    var s := sp + tok + more;
    assert s[..|sp|] == sp;
    SpanSpaceIs(s, |sp|);
    var tail := tok + more;
    assert s[|sp|..] == tail;
    assert tail[..|tok|] == tok;
    if more == [] || IsSpace(more[0]) {
      SpanNonSpaceIs(tail, |tok|);
    }
  }

  lemma ScanRestAccepts(d: string, after: string)
    requires d != [] && ':' !in d && |d| <= MaxDomainLen
    ensures ScanRest(d + ":" + after) == if Word(after).Some? then Some((d, Word(after).value)) else None
  {
    var rest := d + ":" + after;
    assert rest[..|d|] == d;
    SpanNotIs(rest, ':', |d|);
    assert rest[|d| + 1..] == after;
  }

  /** Every text of the accepted shape scans to its domain and word. */
  lemma ScanAccepts(a: string, d: string, sp: string, tok: string, more: string)
    requires Form(a, d, sp, tok, more)
    ensures Scan(a) == Some((d, tok))
  {
    var after := sp + tok + more;
    var rest := d + ":" + after;
    assert a == QueryPrefix + rest;
    assert a[..|QueryPrefix|] == QueryPrefix && a[|QueryPrefix|..] == rest;
    WordAccepts(sp, tok, more);
    ScanRestAccepts(d, after);
  }

  lemma WordShape(s: string) returns (sp: string, more: string)
    requires Word(s).Some?
    ensures s == sp + Word(s).value + more && AllSpace(sp)
    ensures more == [] || IsSpace(more[0]) || |Word(s).value| == MaxConstraintsLen
  {
    var w := SpanSpace(s);
    var tail := s[w..];
    var n := SpanNonSpace(tail);
    var m := if n <= MaxConstraintsLen then n else MaxConstraintsLen;
    sp, more := s[..w], tail[m..];
    assert Word(s).value == tail[..m];
    assert tail == tail[..m] + more;
    assert s == sp + tail;
  }

  /** Every text that scans has the accepted shape, with the scanned parts. */
  lemma ScanShape(a: string) returns (sp: string, more: string)
    requires Scan(a).Some?
    ensures Form(a, Scan(a).value.0, sp, Scan(a).value.1, more)
  {
    var rest := a[|QueryPrefix|..];
    var d := SpanNot(rest, ':');
    var after := rest[d + 1..];
    sp, more := WordShape(after);
    var w := Word(after).value;
    assert Scan(a) == Some((rest[..d], w));
    SplitAround(rest, d);
    assert a == QueryPrefix + rest;
    Reassociate(a, rest, rest[..d], after, sp, w, more);
  }

  /** A text is what comes before its d-th character, that character, and what follows. */
  lemma SplitAround(s: string, d: nat)
    requires d < |s| && s[d] == ':'
    ensures s == s[..d] + ":" + s[d + 1..]
  {
    assert s == s[..d] + s[d..];
    assert s[d..] == [s[d]] + s[d + 1..];
  }

  lemma Reassociate(a: string, rest: string, d: string, after: string, sp: string, w: string, more: string)
    requires a == QueryPrefix + rest && rest == d + ":" + after && after == sp + w + more
    ensures a == QueryPrefix + d + ":" + sp + w + more
  {
  }

  /** parse_query fails exactly on non-empty args other than the shortcut that do not have the accepted shape. */
  lemma EinvalIffMalformed(a: string)
    ensures QueryOf(Some(a)).None? <==> a != [] && a != AllQuery && !WellFormed(a)
  {
    if Scan(a).Some? {
      var sp, more := ScanShape(a);
      assert Form(a, Scan(a).value.0, sp, Scan(a).value.1, more);
    }
    if WellFormed(a) {
      var d, sp, tok, more :| Form(a, d, sp, tok, more);
      ScanAccepts(a, d, sp, tok, more);
    }
  }

  /** The value the last token with key k gives, scanning from the end. */
  function LastValue(toks: seq<string>, k: string): (r: Option<string>)
    ensures r.Some? <==> exists i :: 0 <= i < |toks| && SplitToken(toks[i]).0 == k
  {
    if toks == [] then None
    else
      var e := SplitToken(toks[|toks| - 1]);
      if e.0 == k then Some(e.1) else LastValue(toks[..|toks| - 1], k)
  }

  lemma {:induction false} LastValueCons(toks: seq<string>, k: string)
    requires toks != []
    ensures var e := SplitToken(toks[0]);
            LastValue(toks, k) ==
              if LastValue(toks[1..], k).Some? then LastValue(toks[1..], k)
              else if e.0 == k then Some(e.1) else None
  {
    if |toks| > 1 {
      var init := toks[..|toks| - 1];
      assert init[0] == toks[0];
      assert init[1..] == toks[1..][..|toks[1..]| - 1];
      LastValueCons(init, k);
    }
  }

  /** Setting tokens in turn leaves each key with its last token's value. */
  lemma {:induction false} SetTokensGet(t: Table, toks: seq<string>, k: string)
    ensures Get(SetTokens(t, toks), k) ==
              if LastValue(toks, k).Some? then LastValue(toks, k) else Get(t, k)
    decreases toks
  {
    if toks != [] {
      var e := SplitToken(toks[0]);
      SetTokensGet(Set(t, e.0, e.1), toks[1..], k);
      LastValueCons(toks, k);
    }
  }

  /**
   * In a parsed constraint table every key holds the value of its last
   * token: a later duplicate overwrites an earlier one, and a key no
   * token names is absent.
   */
  lemma LastDuplicateWins(c: string, k: string)
    requires !IsStarConstraints(c)
    ensures Get(Constraints(c).value, k) == LastValue(Tokens(c), k)
  {
    SetTokensGet([], Tokens(c), k);
  }

  /** "query=*:*&x" is not the shortcut: it names the domain "*" with no constraints. */
  lemma StarQueryWithSuffix()
    ensures QueryOf(Some("query=*:*&x")) == Some(Named(Objectname(Some("*"), None)))
  {
    ScanAccepts("query=*:*&x", "*", "", "*&x", "");
  }

  /** "<domain>:*" gives a NULL table, which matches every objectname of the domain. */
  lemma DomainStarHasNoTable(d: string)
    requires d != [] && ':' !in d && |d| <= MaxDomainLen && d != "*"
    ensures QueryOf(Some(QueryPrefix + d + ":*")) == Some(Named(Objectname(Some(d), None)))
  {
    var a := QueryPrefix + d + ":*";
    ScanAccepts(a, d, "", "*", "");
    if |d| == 1 {
      assert a[6] == d[0];
    } else {
      assert |a| != |AllQuery|;
    }
  }
}
