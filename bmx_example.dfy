/**
 * The demonstration provider of mod_bmx_example.c: one bean, built once
 * at pre-config time with one property of each scalar type, printed for
 * every query that matches its objectname.
 */
module BmxExample {
  import opened Wrappers
  import opened AprTable
  import opened Bmx
  import opened Matcher
  import opened QueryParser
  import opened ObjectnameFormat
  import opened RoundTrip

  const ExampleDomain := "mod_bmx_example"

  /** The objectname bmx_example_pre_config builds. */
  function ExampleObjectname(): (on: Objectname)
    ensures on.domain == Some(ExampleDomain)
    ensures on.props == Some([("Type", "BMXExampleModule"), ("Something", "Else")])
  {
    assert Get([], "Type").None?;
    var t1 := Set([], "Type", "BMXExampleModule");
    assert t1 == [("Type", "BMXExampleModule")];
    assert t1[0].0 != "Something";
    assert Get(t1, "Something").None?;
    var t2 := Set(t1, "Something", "Else");
    assert t2 == t1 + [("Something", "Else")];
    assert t2 == [("Type", "BMXExampleModule"), ("Something", "Else")];
    Objectname(Some(ExampleDomain), Some(t2))
  }

  /** The 8- and 16-bit samples. */
  function NarrowSamples(): seq<Property> {
    [
      Property("SomeBool", Boolean(1)),
      Property("SomeByte", Byte(32)),
      Property("SomeINT16", Int16Value(-42)),
      Property("SomeUINT16", UInt16Value(42))
    ]
  }

  /** The 32- and 64-bit samples. */
  function WideSamples(): seq<Property> {
    [
      Property("SomeINT32", Int32Value(-123456)),
      Property("SomeUINT32", UInt32Value(123456)),
      Property("SomeINT64", Int64Value(-1231231231231232037)),
      Property("SomeUINT64", UInt64Value(1231231231231232037))
    ]
  }

  /**
   * The floating-point and string samples. The float and double samples
   * are kept as the decimal numbers written in the source, not as their
   * single-precision roundings.
   */
  function OtherSamples(): seq<Property> {
    [
      Property("SomeFloat", FloatValue(3.1415)),
      Property("SomeDouble", DoubleValue(2.71828183)),
      StringProperty("SomeString", "This is a string")
    ]
  }

  /** The eleven sample properties in the order they are added. */
  function ExampleProperties(): (ps: seq<Property>)
    ensures |ps| == 11
    ensures ps[0].key == "SomeBool" && ps[10].key == "SomeString"
  {
    NarrowSamples() + WideSamples() + OtherSamples()
  }

  method AddNarrowSamples(bean: Bean)
    modifies bean
    ensures bean.objectname == old(bean.objectname)
    ensures bean.properties == old(bean.properties) + NarrowSamples()
  {
    bean.AddProperty(Property("SomeBool", Boolean(1)));
    bean.AddProperty(Property("SomeByte", Byte(32)));
    bean.AddProperty(Property("SomeINT16", Int16Value(-42)));
    bean.AddProperty(Property("SomeUINT16", UInt16Value(42)));
  }

  method AddWideSamples(bean: Bean)
    modifies bean
    ensures bean.objectname == old(bean.objectname)
    ensures bean.properties == old(bean.properties) + WideSamples()
  {
    bean.AddProperty(Property("SomeINT32", Int32Value(-123456)));
    bean.AddProperty(Property("SomeUINT32", UInt32Value(123456)));
    bean.AddProperty(Property("SomeINT64", Int64Value(-1231231231231232037)));
    bean.AddProperty(Property("SomeUINT64", UInt64Value(1231231231231232037)));
  }

  method AddOtherSamples(bean: Bean)
    modifies bean
    ensures bean.objectname == old(bean.objectname)
    ensures bean.properties == old(bean.properties) + OtherSamples()
  {
    bean.AddProperty(Property("SomeFloat", FloatValue(3.1415)));
    bean.AddProperty(Property("SomeDouble", DoubleValue(2.71828183)));
    bean.AddProperty(StringProperty("SomeString", "This is a string"));
  }

  /** bmx_example_pre_config: the objectname, then the bean and its properties. */
  method PreConfig() returns (bean: Bean)
    ensures fresh(bean)
    ensures bean.Snapshot() == BeanValue(ExampleObjectname(), ExampleProperties())
  {
    bean := new Bean.Init(ExampleObjectname());
    AddNarrowSamples(bean);
    AddWideSamples(bean);
    AddOtherSamples(bean);
  }

  /** bmx_example_query_hook over the bean built at pre-config time. */
  function ExampleHook(q: Query, b: BeanValue): HookResult {
    if Matches(q, b.objectname) then HookResult(OK, [b]) else HookResult(DECLINED, [])
  }

  method ExampleQueryHook(q: Query, bean: Bean) returns (res: HookResult)
    requires Parsed(q) && Matchable(bean.objectname)
    ensures res == ExampleHook(q, bean.Snapshot())
    ensures res.rv == OK <==> res.printed == [bean.Snapshot()]
    ensures res.rv == DECLINED <==> res.printed == []
  {
    var m := Select(q, bean.objectname);
    if m {
      res := HookResult(OK, [bean.Snapshot()]);
    } else {
      res := HookResult(DECLINED, []);
    }
  }

  /** The query naming only the Type key. */
  const TypeQuery := Objectname(Some(ExampleDomain), Some([("Type", "BMXExampleModule")]))

  /** The same query with a Something value the bean does not carry. */
  const OtherQuery := Objectname(Some(ExampleDomain), Some([("Type", "BMXExampleModule"), ("Something", "Other")]))

  /** Letters and the underscore: nothing the query syntax gives a meaning to. */
  predicate Word(s: string) {
    forall i :: 0 <= i < |s| ==> 'A' <= s[i] <= 'Z' || 'a' <= s[i] <= 'z' || s[i] == '_'
  }

  lemma WordIsPlain(s: string)
    requires Word(s)
    ensures PlainKey(s) && PlainValue(s) && ':' !in s && '\0' !in s
  {
    forall x | x in s ensures x != ':' && x != '\0' {
      var i :| 0 <= i < |s| && s[i] == x;
    }
  }

  lemma TypeQueryParsable()
    ensures Parsable(TypeQuery)
  {
    assert Word(ExampleDomain) && Word("Type") && Word("BMXExampleModule");
    WordIsPlain(ExampleDomain);
    WordIsPlain("Type");
    WordIsPlain("BMXExampleModule");
  }

  lemma OtherQueryParsable()
    ensures Parsable(OtherQuery)
  {
    var t := OtherQuery.props.value;
    assert Word(ExampleDomain) && Word("Type") && Word("BMXExampleModule") && Word("Something") && Word("Other");
    WordIsPlain(ExampleDomain);
    WordIsPlain("Type");
    WordIsPlain("BMXExampleModule");
    WordIsPlain("Something");
    WordIsPlain("Other");
    assert |t[0].0| != |t[1].0|;
  }

  /** The text of the Type query is "mod_bmx_example:Type=BMXExampleModule". */
  lemma TypeQueryText()
    ensures Render(TypeQuery) == "mod_bmx_example:Type=BMXExampleModule"
  {
    assert Render(TypeQuery) == ExampleDomain + ":" + ("Type" + "=" + "BMXExampleModule");
  }

  /** The other query's text is the Type query's text followed by ",Something=Other". */
  lemma OtherQueryText()
    ensures Render(OtherQuery) == Render(TypeQuery) + ",Something=Other"
  {
    var t := OtherQuery.props.value;
    assert t[1..] == [("Something", "Other")];
    assert Pairs(t) == EntryText(t[0]) + "," + EntryText(t[1]);
    assert "," + EntryText(t[1]) == ",Something=Other";
  }

  /** "query=mod_bmx_example:Type=BMXExampleModule" parses to the Type query. */
  lemma TypeQueryParses()
    ensures QueryOf(Some(QueryPrefix + "mod_bmx_example:Type=BMXExampleModule")) == Some(Named(TypeQuery))
  {
    TypeQueryText();
    TypeQueryParsable();
    ParseRendered(TypeQuery);
  }

  /** Adding ",Something=Other" parses to the other query. */
  lemma OtherQueryParses()
    ensures QueryOf(Some(QueryPrefix + "mod_bmx_example:Type=BMXExampleModule" + ",Something=Other")) ==
              Some(Named(OtherQuery))
  {
    TypeQueryText();
    OtherQueryText();
    OtherQueryParsable();
    ParseRendered(OtherQuery);
    assert QueryPrefix + Render(OtherQuery) ==
           QueryPrefix + "mod_bmx_example:Type=BMXExampleModule" + ",Something=Other";
  }

  /**
   * The Type query is answered with the example bean; the query that
   * also asks for Something=Other is declined.
   */
  lemma ExampleQueries(b: BeanValue)
    requires b.objectname == ExampleObjectname()
    ensures ExampleHook(Named(TypeQuery), b) == HookResult(OK, [b])
    ensures ExampleHook(Named(OtherQuery), b) == HookResult(DECLINED, [])
  {
    var t := ExampleObjectname().props.value;
    assert Get(t, "Type") == Some("BMXExampleModule");
    assert t[0].0 != "Something";
    assert Get(t, "Something") == Some("Else");
    var c := OtherQuery.props.value;
    assert c[1].1 != "Else";
    assert !Found(c[1], b.objectname.props);
  }
}
