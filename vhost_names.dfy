/**
 * The names mod_bmx_vhost gives each virtual host (mod_bmx_vhost.c): the
 * DBM key its record is stored under, the objectnames of its three
 * counter windows, and the strings of its info bean.
 */
module VhostNames {
  import opened Wrappers
  import opened AprTable
  import opened Bmx
  import opened Decimal
  import ObjectnameFormat

  const VhostDomain := "mod_bmx_vhost"
  const KeyPrefix := "bmx_vhost"
  const AnyPort := "_ANY_"
  const InfoType := "info"
  const GlobalServerName := "_GLOBAL_"

  /** The three lifetimes of a vhost's counters. */
  datatype Window = Forever | SinceStart | SinceRestart

  /** vhost_type_names. */
  function WindowName(w: Window): string {
    match w
    case Forever => "forever"
    case SinceStart => "since-start"
    case SinceRestart => "since-restart"
  }

  /** An apr_sockaddr_t as far as the listen-address string reads it. */
  datatype SockAddr = SockAddr(hostname: Option<string>, port: UInt16)

  /** A server_addr_rec: its host_addr may be NULL. */
  datatype ServerAddr = ServerAddr(hostAddr: Option<SockAddr>)

  /**
   * The parts of a server_rec the naming code reads: the virtual host's
   * name and port, its ServerAlias lists (each possibly NULL), and its
   * address list in order.
   */
  datatype Server = Server(
    hostname: string, port: UInt16,
    names: Option<seq<string>>, wildNames: Option<seq<string>>,
    addrs: seq<ServerAddr>)

  /**
   * create_vhost_key: "bmx_vhost-<host>:<port>", the port printed from the
   * unsigned apr_port_t.
   */
  function VhostKey(host: string, port: UInt16): string {
    KeyPrefix + "-" + host + ":" + NatToDec(port)
  }

  /** The key of the global record (create_global_scfg). */
  const GlobalKey := KeyPrefix + "-" + GlobalServerName

  /** The global key is no vhost's key: every vhost key holds a ':'. */
  lemma GlobalKeyDiffers(host: string, port: UInt16)
    ensures VhostKey(host, port) != GlobalKey
  {
    var k := VhostKey(host, port);
    assert k[|KeyPrefix| + 1 + |host|] == ':';
    assert ':' !in GlobalKey;
  }

  /** The last ':' of a key is the one before the port's digits. */
  lemma KeyEndsWithPort(host: string, port: UInt16)
    ensures var k, d := VhostKey(host, port), NatToDec(port);
            && k[|k| - |d| - 1] == ':'
            && forall j :: |k| - |d| <= j < |k| ==> IsDigit(k[j])
  {
  }

  /**
   * A key names exactly one host and port, even for hosts that contain
   * ':' themselves: the digits after the last ':' are the port.
   */
  lemma VhostKeyInjective(h1: string, p1: UInt16, h2: string, p2: UInt16)
    requires VhostKey(h1, p1) == VhostKey(h2, p2)
    ensures h1 == h2 && p1 == p2
  {
    var d1, d2 := NatToDec(p1), NatToDec(p2);
    var k := VhostKey(h1, p1);
    if |d1| != |d2| {
      KeyEndsWithPort(h1, p1);
      KeyEndsWithPort(h2, p2);
      assert false;
    } else {
      assert d1 == k[|k| - |d1|..];
      assert d2 == k[|k| - |d2|..];
      NatToDecInjective(p1, p2);
      assert KeyPrefix + "-" + h1 == k[..|k| - |d1| - 1];
      assert KeyPrefix + "-" + h2 == k[..|k| - |d2| - 1];
      assert h1 == (KeyPrefix + "-" + h1)[|KeyPrefix| + 1..];
      assert h2 == (KeyPrefix + "-" + h2)[|KeyPrefix| + 1..];
    }
  }

  /** The value of a port assigned to a C `short`: ports from 32768 up turn negative. */
  function AsShort(p: UInt16): (s: Int16)
    ensures s == p || s == p - 0x1_0000
  {
    if p < 0x8000 then p else p - 0x1_0000
  }

  /** "%d" of the port after it has passed through a `short`, as written. */
  function ShortDecimal(p: UInt16): string {
    IntToDec(AsShort(p))
  }

  /** The decimal text of the port itself. */
  function PortDecimal(p: UInt16): string {
    NatToDec(p)
  }

  /** The two agree below 32768; from 32768 up the `short` text is negative. */
  lemma ShortDecimalDiffers(p: UInt16)
    ensures p < 0x8000 ==> ShortDecimal(p) == PortDecimal(p)
    ensures p >= 0x8000 ==> ShortDecimal(p)[0] == '-' && ShortDecimal(p) != PortDecimal(p)
  {
    if p >= 0x8000 {
      var n := PortDecimal(p);
      assert n[0] != '-';
    }
  }

  /** The Port constraint as written: "_ANY_" for port 0, else "%d" of a `short`. */
  function PortTextAsWritten(p: UInt16): string {
    if p == 0 then AnyPort else ShortDecimal(p)
  }

  /** The Port constraint as intended: "_ANY_" for port 0, else the port's decimal. */
  function PortText(p: UInt16): (s: string)
    ensures s == AnyPort <==> p == 0
    ensures p != 0 ==> AllDigits(s) && DecValue(s) == p
  {
    if p == 0 then AnyPort
    else
      DecRoundTrip(p);
      assert PortDecimal(p)[0] != '_';
      PortDecimal(p)
  }

  /** Port 40000 is shown as "-25536" by the code as written. */
  lemma HighPortShownNegative()
    ensures PortTextAsWritten(40000) == "-25536"
    ensures PortText(40000) == "40000"
  {
    assert AsShort(40000) == -25536;
    assert NatToDec(25536) == "25536" by {
      assert NatToDec(2) == "2";
      assert NatToDec(25) == "25";
      assert NatToDec(255) == "255";
      assert NatToDec(2553) == "2553";
    }
    assert NatToDec(40000) == "40000" by {
      assert NatToDec(4) == "4";
      assert NatToDec(40) == "40";
      assert NatToDec(400) == "400";
      assert NatToDec(4000) == "4000";
    }
  }

  /** The table Type, Host and Port that every vhost objectname carries. */
  function VhostTable(kind: string, host: string, port: UInt16): Table {
    Set(Set(Set([], "Type", kind), "Host", host), "Port", PortText(port))
  }

  /** The three keys are distinct, so each apr_table_set appends. */
  lemma VhostTableIs(kind: string, host: string, port: UInt16)
    ensures VhostTable(kind, host, port) == [("Type", kind), ("Host", host), ("Port", PortText(port))]
  {
    var t1: Table := [("Type", kind)];
    var t2: Table := t1 + [("Host", host)];
    assert Get([], "Type").None?;
    assert Set([], "Type", kind) == t1;
    assert Find(t1, "Host") == 1;
    assert Set(t1, "Host", host) == t2;
    assert Find(t2, "Port") == 2;
  }

  /**
   * create_scfg_objectname: domain mod_bmx_vhost with the window's name as
   * Type, then Host and Port, in that order.
   */
  function WindowObjectname(w: Window, host: string, port: UInt16): (on: Objectname)
    ensures on.domain == Some(VhostDomain)
    ensures on.props == Some([("Type", WindowName(w)), ("Host", host), ("Port", PortText(port))])
  {
    VhostTableIs(WindowName(w), host, port);
    Objectname(Some(VhostDomain), Some(VhostTable(WindowName(w), host, port)))
  }

  /** Different windows, hosts or ports give different objectnames. */
  lemma WindowObjectnamesUnique(w1: Window, h1: string, p1: UInt16, w2: Window, h2: string, p2: UInt16)
    requires WindowObjectname(w1, h1, p1) == WindowObjectname(w2, h2, p2)
    ensures w1 == w2 && h1 == h2 && p1 == p2
  {
    var t1 := WindowObjectname(w1, h1, p1).props.value;
    var t2 := WindowObjectname(w2, h2, p2).props.value;
    assert t1[0].1 == t2[0].1 && t1[1].1 == t2[1].1 && t1[2].1 == t2[2].1;
    if p1 != 0 && p2 != 0 {
      assert DecValue(PortText(p1)) == DecValue(PortText(p2));
    }
  }

  /** The server-level configuration: the three window objectnames and the record's key. */
  datatype Scfg = Scfg(forever: Objectname, sinceStart: Objectname, sinceRestart: Objectname, key: string)

  function WindowOf(c: Scfg, w: Window): Objectname {
    match w
    case Forever => c.forever
    case SinceStart => c.sinceStart
    case SinceRestart => c.sinceRestart
  }

  lemma WindowsOfNamed(c: Scfg, host: string, port: UInt16)
    requires c.forever == WindowObjectname(Forever, host, port)
    requires c.sinceStart == WindowObjectname(SinceStart, host, port)
    requires c.sinceRestart == WindowObjectname(SinceRestart, host, port)
    ensures forall w :: WindowOf(c, w) == WindowObjectname(w, host, port)
  {
    forall w ensures WindowOf(c, w) == WindowObjectname(w, host, port) {
      match w
      case Forever =>
      case SinceStart =>
      case SinceRestart =>
    }
  }

  /** The windows and key of a vhost (bmx_vhost_create_scfg). */
  function VhostScfg(s: Server): (c: Scfg)
    ensures forall w :: WindowOf(c, w) == WindowObjectname(w, s.hostname, s.port)
    ensures c.key == VhostKey(s.hostname, s.port)
  {
    var c := Scfg(
      WindowObjectname(Forever, s.hostname, s.port),
      WindowObjectname(SinceStart, s.hostname, s.port),
      WindowObjectname(SinceRestart, s.hostname, s.port),
      VhostKey(s.hostname, s.port));
    WindowsOfNamed(c, s.hostname, s.port);
    c
  }

  /** create_global_scfg: host _GLOBAL_, port 0 (shown as _ANY_), and the global key. */
  function GlobalScfg(): (c: Scfg)
    ensures forall w :: WindowOf(c, w) == WindowObjectname(w, GlobalServerName, 0)
    ensures c.key == GlobalKey
  {
    var c := Scfg(
      WindowObjectname(Forever, GlobalServerName, 0),
      WindowObjectname(SinceStart, GlobalServerName, 0),
      WindowObjectname(SinceRestart, GlobalServerName, 0),
      GlobalKey);
    WindowsOfNamed(c, GlobalServerName, 0);
    c
  }

  /** apr_array_pstrcat: the strings separated by sep; "" for none. */
  function Join(xs: seq<string>, sep: char): string {
    if |xs| == 0 then ""
    else if |xs| == 1 then xs[0]
    else Join(xs[..|xs| - 1], sep) + [sep] + xs[|xs| - 1]
  }

  /** Joining two non-empty lists puts one separator between their joins. */
  lemma {:induction false} JoinAppend(a: seq<string>, b: seq<string>, sep: char)
    requires a != [] && b != []
    ensures Join(a + b, sep) == Join(a, sep) + [sep] + Join(b, sep)
    decreases |b|
  {
    if |b| > 1 {
      var b' := b[..|b| - 1];
      assert (a + b)[..|a + b| - 1] == a + b';
      JoinAppend(a, b', sep);
    } else {
      assert (a + b)[..|a + b| - 1] == a;
    }
  }

  /**
   * vhost_server_aliases_str: the ServerAlias names, then the wildcard
   * ones, joined with ','; a NULL list contributes nothing.
   */
  function ServerAliases(names: Option<seq<string>>, wildNames: Option<seq<string>>): (r: string)
    ensures r == Join(names.GetOr([]) + wildNames.GetOr([]), ',')
  {
    if names.Some? && wildNames.Some? then Join(names.value + wildNames.value, ',')
    else if names.Some? then
      assert names.value + [] == names.value;
      Join(names.value, ',')
    else if wildNames.Some? then
      assert [] + wildNames.value == wildNames.value;
      Join(wildNames.value, ',')
    else ""
  }

  /** The aliases text is the names' text and the wildcard names' text, comma-separated. */
  lemma AliasesConcatenate(names: seq<string>, wildNames: seq<string>)
    requires names != [] && wildNames != []
    ensures ServerAliases(Some(names), Some(wildNames)) ==
              ServerAliases(Some(names), None) + "," + ServerAliases(None, Some(wildNames))
  {
    JoinAppend(names, wildNames, ',');
    assert names + [] == names;
    assert [] + wildNames == wildNames;
  }

  /** An address the listen string includes: it has a hostname and a non-zero port. */
  predicate Listed(a: ServerAddr) {
    a.hostAddr.Some? && a.hostAddr.value.hostname.Some? && a.hostAddr.value.port != 0
  }

  /** "%s:%u" of a listed address. */
  function AddrText(a: ServerAddr): string
    requires Listed(a)
  {
    a.hostAddr.value.hostname.value + ":" + NatToDec(a.hostAddr.value.port)
  }

  /** The texts of the listed addresses, in list order. */
  function ListedTexts(addrs: seq<ServerAddr>): seq<string> {
    if addrs == [] then []
    else
      var last := addrs[|addrs| - 1];
      ListedTexts(addrs[..|addrs| - 1]) + (if Listed(last) then [AddrText(last)] else [])
  }

  /**
   * The first pass of vhost_listen_addresses_str: for each listed address
   * its hostname, ':' and five characters for the port, plus one ',' before
   * every address but the first.
   */
  function Budget(addrs: seq<ServerAddr>): nat {
    if addrs == [] then 0
    else
      var init, last := addrs[..|addrs| - 1], addrs[|addrs| - 1];
      Budget(init) +
        if Listed(last) then (if ListedTexts(init) == [] then 0 else 1) + |last.hostAddr.value.hostname.value| + 1 + 5
        else 0
  }

  /** The budget is zero exactly when no address is listed, and the text always fits it. */
  lemma {:induction false} TextFitsBudget(addrs: seq<ServerAddr>)
    ensures Budget(addrs) == 0 <==> ListedTexts(addrs) == []
    ensures |Join(ListedTexts(addrs), ',')| <= Budget(addrs)
  {
    if addrs != [] {
      var init, last := addrs[..|addrs| - 1], addrs[|addrs| - 1];
      TextFitsBudget(init);
      if Listed(last) {
        DecLengthBound(last.hostAddr.value.port, 5);
        if ListedTexts(init) != [] {
          assert (ListedTexts(init) + [AddrText(last)])[..|ListedTexts(init)|] == ListedTexts(init);
        }
      } else {
        assert ListedTexts(addrs) == ListedTexts(init);
      }
    }
  }

  /** A prefix of the list never needs more room than the whole list. */
  lemma {:induction false} BudgetGrows(addrs: seq<ServerAddr>, i: nat)
    requires i <= |addrs|
    ensures Budget(addrs[..i]) <= Budget(addrs)
    decreases |addrs|
  {
    if i < |addrs| {
      var init := addrs[..|addrs| - 1];
      assert init[..i] == addrs[..i];
      BudgetGrows(init, i);
    } else {
      assert addrs[..i] == addrs;
    }
  }

  /** One more address: the listed texts and the budget grow by that address's share. */
  lemma ListedStep(addrs: seq<ServerAddr>, i: nat)
    requires i < |addrs|
    ensures ListedTexts(addrs[..i + 1]) ==
              ListedTexts(addrs[..i]) + (if Listed(addrs[i]) then [AddrText(addrs[i])] else [])
    ensures Budget(addrs[..i + 1]) ==
              Budget(addrs[..i]) +
                if Listed(addrs[i]) then
                  (if ListedTexts(addrs[..i]) == [] then 0 else 1) + |addrs[i].hostAddr.value.hostname.value| + 6
                else 0
  {
    assert addrs[..i + 1][..i] == addrs[..i];
  }

  /** Printing a listed address extends the text to the next prefix's text. */
  lemma PieceExtends(addrs: seq<ServerAddr>, i: nat, first: bool, text: string, piece: string)
    requires i < |addrs| && Listed(addrs[i])
    requires text == Join(ListedTexts(addrs[..i]), ',')
    requires first <==> ListedTexts(addrs[..i]) == []
    requires piece == if first then AddrText(addrs[i]) else "," + AddrText(addrs[i])
    ensures Join(ListedTexts(addrs[..i + 1]), ',') == text + piece
  {
    ListedStep(addrs, i);
    var next := ListedTexts(addrs[..i + 1]);
    assert next[..|next| - 1] == ListedTexts(addrs[..i]);
  }

  /** One sprintf of the second pass: "%s:%u", or ",%s:%u" after the first address. */
  method PrintAddress(buf: array<char>, q: nat, addrs: seq<ServerAddr>, i: nat, first: bool) returns (q': nat)
    requires i < |addrs| && Listed(addrs[i])
    requires q <= buf.Length && buf[..q] == Join(ListedTexts(addrs[..i]), ',')
    requires first <==> ListedTexts(addrs[..i]) == []
    requires Budget(addrs[..i + 1]) < buf.Length
    modifies buf
    ensures q' <= Budget(addrs[..i + 1])
    ensures buf[..q'] == Join(ListedTexts(addrs[..i + 1]), ',')
  {
    var piece := if first then AddrText(addrs[i]) else "," + AddrText(addrs[i]);
    PieceExtends(addrs, i, first, buf[..q], piece);
    TextFitsBudget(addrs[..i + 1]);
    ObjectnameFormat.Emit(buf, q, piece);
    q' := q + |piece|;
  }

  /**
   * vhost_listen_addresses_str: measure the listed addresses, then print
   * them into a buffer of budget + 1 characters, each "%s:%u" preceded by
   * ',' except the first; "" when none is listed.
   */
  method ListenAddresses(addrs: seq<ServerAddr>) returns (r: string)
    ensures r == Join(ListedTexts(addrs), ',')
    ensures |r| <= Budget(addrs)
  {
    var slen := 0;
    var first := true;
    for i := 0 to |addrs|
      invariant slen == Budget(addrs[..i])
      invariant first <==> ListedTexts(addrs[..i]) == []
    {
      ListedStep(addrs, i);
      var a := addrs[i];
      if a.hostAddr.Some? {
        if a.hostAddr.value.hostname.Some? && a.hostAddr.value.port != 0 {
          if first {
            first := false;
          } else {
            slen := slen + 1;
          }
          slen := slen + |a.hostAddr.value.hostname.value| + 1 + 5;
        }
      }
    }
    assert addrs[..|addrs|] == addrs;
    if slen == 0 {
      TextFitsBudget(addrs);
      return "";
    }

    var buf := new char[slen + 1];
    var q: nat := 0;
    first := true;
    for i := 0 to |addrs|
      invariant q <= slen < buf.Length
      invariant buf[..q] == Join(ListedTexts(addrs[..i]), ',')
      invariant first <==> ListedTexts(addrs[..i]) == []
    {
      ListedStep(addrs, i);
      var a := addrs[i];
      if a.hostAddr.Some? && a.hostAddr.value.hostname.Some? && a.hostAddr.value.port != 0 {
        BudgetGrows(addrs, i + 1);
        q := PrintAddress(buf, q, addrs, i, first);
        first := false;
      } else {
        assert ListedTexts(addrs[..i + 1]) == ListedTexts(addrs[..i]);
      }
    }
    r := buf[..q];
    TextFitsBudget(addrs);
  }

  /**
   * The ServerName of the info bean: "host:port" when both are set, the
   * host alone without a port, "" without a host.
   */
  function ServerName(host: Option<string>, port: UInt16): (r: string)
    ensures host.None? ==> r == ""
    ensures host.Some? ==> |r| >= |host.value| && r[..|host.value|] == host.value
    ensures host.Some? ==> (r == host.value <==> port == 0)
  {
    if port != 0 && host.Some? then host.value + ":" + PortDecimal(port)
    else if host.Some? then host.value
    else ""
  }

  /** A vhost's ServerName reads exactly like its entry in a listen-address string. */
  lemma ServerNameLikeListenEntry(host: string, port: UInt16)
    requires port != 0
    ensures ServerName(Some(host), port) == AddrText(ServerAddr(Some(SockAddr(Some(host), port))))
  {
  }

  /** The objectname of the info bean: Type=info, Host and Port. */
  function InfoObjectname(host: string, port: UInt16): (on: Objectname)
    ensures on.domain == Some(VhostDomain)
    ensures on.props == Some([("Type", InfoType), ("Host", host), ("Port", PortText(port))])
  {
    VhostTableIs(InfoType, host, port);
    Objectname(Some(VhostDomain), Some(VhostTable(InfoType, host, port)))
  }

  /** The info bean never answers to a window's name, nor a window to its name. */
  lemma InfoIsNoWindow(w: Window, h1: string, p1: UInt16, h2: string, p2: UInt16)
    ensures InfoObjectname(h1, p1) != WindowObjectname(w, h2, p2)
  {
    var t := WindowObjectname(w, h2, p2).props.value;
    assert t[0].1 == WindowName(w);
  }

  /** The info bean as create_vhost_info_bean builds it. */
  function InfoBean(s: Server, listen: string): BeanValue {
    BeanValue(InfoObjectname(s.hostname, s.port),
              InfoProperties(ServerName(Some(s.hostname), s.port), ServerAliases(s.names, s.wildNames), listen))
  }

  /** ServerName, ServerAliases and ListenAddresses, in that order. */
  function InfoProperties(serverName: string, aliases: string, listen: string): seq<Property> {
    [StringProperty("ServerName", serverName),
     StringProperty("ServerAliases", aliases),
     StringProperty("ListenAddresses", listen)]
  }

  /**
   * create_vhost_info_bean: the info objectname, then the properties
   * ServerName, ServerAliases and ListenAddresses, in that order.
   */
  method CreateInfoBean(s: Server) returns (bean: Bean)
    ensures fresh(bean)
    ensures bean.Snapshot() == InfoBean(s, Join(ListedTexts(s.addrs), ','))
  {
    var serverName := ServerName(Some(s.hostname), s.port);
    var listen := ListenAddresses(s.addrs);
    var aliases := ServerAliases(s.names, s.wildNames);
    bean := new Bean.Init(InfoObjectname(s.hostname, s.port));
    AddInfoProperties(bean, serverName, aliases, listen);
  }

  /** The three string properties of the info bean, appended in order. */
  method AddInfoProperties(bean: Bean, serverName: string, aliases: string, listen: string)
    modifies bean
    ensures bean.objectname == old(bean.objectname)
    ensures bean.properties == old(bean.properties) + InfoProperties(serverName, aliases, listen)
  {
    bean.AddProperty(StringProperty("ServerName", serverName));
    bean.AddProperty(StringProperty("ServerAliases", aliases));
    bean.AddProperty(StringProperty("ListenAddresses", listen));
  }
}
