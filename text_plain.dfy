/**
 * The plain-text print callback of mod_bmx.c: property_print, which turns
 * one typed value into text, and bmx_bean_print_text_plain, which writes
 * a whole bean to the response.
 */
module TextPlain {
  import opened Wrappers
  import opened AprTable
  import opened Bmx
  import opened Decimal
  import opened ObjectnameFormat

  /** An unsigned int printed with "%d": its bits read as a signed 32-bit int. */
  function AsInt32(u: UInt32): (i: Int32)
    ensures i == u || i == u - 0x1_0000_0000
    ensures 0 <= i <==> u < 0x8000_0000
  {
    if u < 0x8000_0000 then u else u - 0x1_0000_0000
  }

  /**
   * property_print: the text of one value, or None for a NULL pointer
   * (a STRING property holding NULL, or a print_fn returning NULL). The
   * "%du" format prints the decimal of the value promoted to int followed
   * by a literal 'u'.
   */
  function PropertyPrint(v: Value, fmt: Formatters): Option<string> {
    match v
    case Boolean(flag) => Some(if flag != 0 then "true" else "false")
    case Byte(b) => Some(IntToDec(b) + "u")
    case Int16Value(x) => Some(IntToDec(x))
    case UInt16Value(x) => Some(IntToDec(x) + "u")
    case Int32Value(x) => Some(IntToDec(x))
    case UInt32Value(x) => Some(IntToDec(AsInt32(x)) + "u")
    case Int64Value(x) => Some(IntToDec(x))
    case UInt64Value(x) => Some(IntToDec(x))
    case FloatValue(f) => Some(fmt.fixedPoint(f))
    case DoubleValue(d) => Some(fmt.fixedPoint(d))
    case StringValue(s) => s
    case OtherValue(h) => fmt.printFn(h)
    case NullValue => Some("")
  }

  /**
   * The text of every integer value reads back as that value: signed
   * types as plain decimals, BYTE and UINT16 as a decimal with a 'u'
   * appended, UINT32 likewise but read as a signed 32-bit int, so the
   * same value modulo 2^32.
   */
  lemma PrintedIntegersReadBack(v: Value, fmt: Formatters)
    ensures v.Boolean? ==> (PropertyPrint(v, fmt) == Some("true") <==> v.flag != 0)
    ensures v.Boolean? ==> (PropertyPrint(v, fmt) == Some("false") <==> v.flag == 0)
    ensures (v.Byte? || v.UInt16Value? || v.UInt32Value?) ==>
              var s := PropertyPrint(v, fmt).value;
              && |s| >= 2 && s[|s| - 1] == 'u'
              && var digits := s[..|s| - 1];
                 && (digits[0] == '-' ==> AllDigits(digits[1..]))
                 && (digits[0] != '-' ==> AllDigits(digits))
                 && (v.Byte? ==> SignedValue(digits) == v.byte)
                 && (v.UInt16Value? ==> SignedValue(digits) == v.uint16)
                 && (v.UInt32Value? ==> SignedValue(digits) % 0x1_0000_0000 == v.uint32)
    ensures (v.Int16Value? || v.Int32Value? || v.Int64Value? || v.UInt64Value?) ==>
              var s := PropertyPrint(v, fmt).value;
              && |s| >= 1
              && (s[0] == '-' ==> AllDigits(s[1..]))
              && (s[0] != '-' ==> AllDigits(s))
              && (v.Int16Value? ==> SignedValue(s) == v.int16)
              && (v.Int32Value? ==> SignedValue(s) == v.int32)
              && (v.Int64Value? ==> SignedValue(s) == v.int64)
              && (v.UInt64Value? ==> SignedValue(s) == v.uint64)
    ensures v.StringValue? ==> PropertyPrint(v, fmt) == v.s
    ensures v.NullValue? ==> PropertyPrint(v, fmt) == Some("")
  {
    var i: int := match v
      case Byte(b) => b
      case UInt16Value(x) => x
      case UInt32Value(x) => AsInt32(x)
      case Int16Value(x) => x
      case Int32Value(x) => x
      case Int64Value(x) => x
      case UInt64Value(x) => x
      case _ => 0;
    SignedRoundTrip(i);
    if v.Byte? || v.UInt16Value? || v.UInt32Value? {
      var s := PropertyPrint(v, fmt).value;
      assert s == IntToDec(i) + "u";
      assert s[..|s| - 1] == IntToDec(i);
    }
  }

  /** What ap_rputs sends for a C string: its characters up to the first NUL. */
  function UpToNul(s: string): (r: string)
    ensures '\0' !in r && |r| <= |s| && r == s[..|r|]
    ensures |r| < |s| ==> s[|r|] == '\0'
  {
    if s == [] || s[0] == '\0' then [] else [s[0]] + UpToNul(s[1..])
  }

  /**
   * Reading a C string out of a buffer: the characters before the first
   * NUL, or None when there is no NUL in the buffer and the read runs
   * past its end.
   */
  function ReadCString(buf: seq<char>): (r: Option<string>)
    ensures r.Some? <==> '\0' in buf
    ensures r.Some? ==> r.value == UpToNul(buf)
  {
    if '\0' in buf then Some(UpToNul(buf)) else None
  }

  /** One property line: "key: value\n", the value left out when property_print gave NULL. */
  function Line(p: Property, fmt: Formatters): string {
    var value := PropertyPrint(p.value, fmt);
    UpToNul(p.key) + ": " + (if value.Some? then UpToNul(value.value) else "") + "\n"
  }

  /** The property lines in ring order. */
  function Lines(ps: seq<Property>, fmt: Formatters): string {
    if ps == [] then "" else Line(ps[0], fmt) + Lines(ps[1..], fmt)
  }

  /** The whole text of a bean: its name line, its property lines, and an empty line. */
  function BeanText(b: BeanValue, fmt: Formatters): string {
    "Name: " + UpToNul(Render(b.objectname)) + "\n" + Lines(b.properties, fmt) + "\n"
  }

  lemma {:induction false} LinesSnoc(ps: seq<Property>, p: Property, fmt: Formatters)
    ensures Lines(ps + [p], fmt) == Lines(ps, fmt) + Line(p, fmt)
    decreases |ps|
  {
    if ps != [] {
      assert (ps + [p])[1..] == ps[1..] + [p];
      LinesSnoc(ps[1..], p, fmt);
    } else {
      assert Lines([p], fmt) == Line(p, fmt) + Lines([], fmt);
    }
  }

  /**
   * Adding a property to a bean adds its line just before the closing
   * empty line: the text lists properties in insertion order.
   */
  lemma AddedPropertyPrintsLast(b: BeanValue, p: Property, fmt: Formatters)
    ensures var before := BeanText(b, fmt);
            BeanText(BeanValue(b.objectname, b.properties + [p]), fmt) ==
              before[..|before| - 1] + Line(p, fmt) + "\n"
  {
    var head := "Name: " + UpToNul(Render(b.objectname)) + "\n";
    var lines := Lines(b.properties, fmt);
    LinesSnoc(b.properties, p, fmt);
    var before := head + lines + "\n";
    assert BeanText(b, fmt) == before;
    assert before[..|before| - 1] == head + lines;
    Associate(head, lines, Line(p, fmt), "\n");
  }

  lemma Associate(a: string, b: string, c: string, d: string)
    ensures a + (b + c) + d == a + b + c + d
  {
  }

  /**
   * Where a name text carries no NUL of its own, reading back the buffer
   * bmx_objectname_str leaves runs past the end of a strlen + 1 byte
   * allocation whenever the text ends in '*' and the last byte happens
   * not to be NUL.
   */
  lemma StarNameOverRead(on: Objectname, init: seq<char>)
    requires |init| == |Render(on)| + 1
    requires !WritesTerminator(on)
    requires '\0' !in Render(on) && init[|Render(on)|] != '\0'
    ensures ReadCString(StrBuffer(on, init)) == None
  {
    var b := StrBuffer(on, init);
    assert b == Render(on) + [init[|Render(on)|]];
  }

  /** A NUL-free objectname whose table is NULL leaves such a buffer. */
  lemma StarNameOverReadExample()
    ensures ReadCString(StrBuffer(Objectname(Some("mod_bmx_example"), None), "mod_bmx_example:*?")) == None
  {
    var on := Objectname(Some("mod_bmx_example"), None);
    assert Render(on) == "mod_bmx_example:*";
    StarNameOverRead(on, "mod_bmx_example:*?");
  }

  /**
   * bmx_objectname_str followed by an explicit NUL at the returned
   * position, so the buffer always holds a terminated name.
   */
  method ObjectnameStrTerminated(on: Objectname, buf: array<char>) returns (n: nat)
    requires buf.Length > |Render(on)|
    modifies buf
    ensures n == |Render(on)|
    ensures ReadCString(buf[..]) == Some(UpToNul(Render(on)))
  {
    n := ObjectnameStr(on, buf);
    buf[n] := '\0';
    assert buf[..][..n] == Render(on);
    UpToNulPrefix(buf[..], n);
  }

  lemma {:induction false} UpToNulPrefix(s: seq<char>, n: nat)
    requires n < |s| && s[n] == '\0'
    ensures '\0' in s
    ensures UpToNul(s) == UpToNul(s[..n])
  {
    if n > 0 && s[0] != '\0' {
      assert s[1..][..n - 1] == s[..n][1..];
      UpToNulPrefix(s[1..], n - 1);
    }
    assert s[n] in s;
  }

  /** The property loop of bmx_bean_print_text_plain, walking the ring from its first element. */
  method PrintProperties(ps: seq<Property>, fmt: Formatters) returns (text: string)
    ensures text == Lines(ps, fmt)
  {
    text := "";
    var i := 0;
    while i < |ps|
      invariant i <= |ps|
      invariant text == Lines(ps[..i], fmt)
    {
      LinesSnoc(ps[..i], ps[i], fmt);
      assert ps[..i + 1] == ps[..i] + [ps[i]];
      ghost var before := text;
      var value := PropertyPrint(ps[i].value, fmt);
      text := text + UpToNul(ps[i].key) + ": ";
      if value.Some? {
        text := text + UpToNul(value.value);
      }
      text := text + "\n";
      LineAppended(before, ps[i], fmt);
      i := i + 1;
    }
    assert ps[..i] == ps;
  }

  /** Writing a line piece by piece appends the whole line. */
  lemma LineAppended(before: string, p: Property, fmt: Formatters)
    ensures var value := PropertyPrint(p.value, fmt);
            before + UpToNul(p.key) + ": " + (if value.Some? then UpToNul(value.value) else "") + "\n" ==
              before + Line(p, fmt)
  {
  }

  /**
   * bmx_bean_print_text_plain, with the name buffer terminated: "Name: "
   * and the objectname, then "key: value" for each property in ring
   * order, then an empty line.
   */
  method PrintTextPlain(bean: Bean, fmt: Formatters) returns (out: string)
    ensures out == BeanText(bean.Snapshot(), fmt)
  {
    var on := bean.objectname;
    var len := ObjectnameStrlen(on);
    var buf := new char[len + 1];
    var _ := ObjectnameStrTerminated(on, buf);
    var name := ReadCString(buf[..]);
    var lines := PrintProperties(bean.properties, fmt);
    out := "Name: " + name.value + "\n" + lines + "\n";
  }
}
