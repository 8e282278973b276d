/**
 * The read side of mod_bmx_vhost.c: the beans of a vhost's three counter
 * windows (print_vhost_bean), the critical section that fetches them
 * (process_vhost_query), and the query hook that visits the global record
 * and every vhost (bmx_vhost_query_hook).
 */
module VhostQuery {
  import opened Wrappers
  import opened Bmx
  import opened Matcher
  import opened VhostCounters
  import opened VhostNames
  import opened VhostStore

  /** The properties for the bytes received per method. */
  function InBytesProperties(ts: Timespan): seq<Property> {
    [
      U64("InBytesGET", ts.inBytesGET),
      U64("InBytesHEAD", ts.inBytesHEAD),
      U64("InBytesPOST", ts.inBytesPOST),
      U64("InBytesPUT", ts.inBytesPUT)
    ]
  }

  method AddInBytes(bean: Bean, ts: Timespan)
    modifies bean
    ensures bean.objectname == old(bean.objectname)
    ensures bean.properties == old(bean.properties) + InBytesProperties(ts)
  {
    bean.AddProperty(U64("InBytesGET", ts.inBytesGET));
    bean.AddProperty(U64("InBytesHEAD", ts.inBytesHEAD));
    bean.AddProperty(U64("InBytesPOST", ts.inBytesPOST));
    bean.AddProperty(U64("InBytesPUT", ts.inBytesPUT));
  }

  /** The properties for the requests received per method. */
  function InRequestsProperties(ts: Timespan): seq<Property> {
    [
      U64("InRequestsGET", ts.inRequestsGET),
      U64("InRequestsHEAD", ts.inRequestsHEAD),
      U64("InRequestsPOST", ts.inRequestsPOST),
      U64("InRequestsPUT", ts.inRequestsPUT)
    ]
  }

  method AddInRequests(bean: Bean, ts: Timespan)
    modifies bean
    ensures bean.objectname == old(bean.objectname)
    ensures bean.properties == old(bean.properties) + InRequestsProperties(ts)
  {
    bean.AddProperty(U64("InRequestsGET", ts.inRequestsGET));
    bean.AddProperty(U64("InRequestsHEAD", ts.inRequestsHEAD));
    bean.AddProperty(U64("InRequestsPOST", ts.inRequestsPOST));
    bean.AddProperty(U64("InRequestsPUT", ts.inRequestsPUT));
  }

  /** The properties for the bytes sent per status. */
  function OutBytesProperties(ts: Timespan): seq<Property> {
    [
      U64("OutBytes200", ts.outBytes200),
      U64("OutBytes301", ts.outBytes301),
      U64("OutBytes302", ts.outBytes302),
      U64("OutBytes401", ts.outBytes401),
      U64("OutBytes403", ts.outBytes403),
      U64("OutBytes404", ts.outBytes404),
      U64("OutBytes500", ts.outBytes500)
    ]
  }

  method AddOutBytes(bean: Bean, ts: Timespan)
    modifies bean
    ensures bean.objectname == old(bean.objectname)
    ensures bean.properties == old(bean.properties) + OutBytesProperties(ts)
  {
    bean.AddProperty(U64("OutBytes200", ts.outBytes200));
    bean.AddProperty(U64("OutBytes301", ts.outBytes301));
    bean.AddProperty(U64("OutBytes302", ts.outBytes302));
    bean.AddProperty(U64("OutBytes401", ts.outBytes401));
    bean.AddProperty(U64("OutBytes403", ts.outBytes403));
    bean.AddProperty(U64("OutBytes404", ts.outBytes404));
    bean.AddProperty(U64("OutBytes500", ts.outBytes500));
  }

  /** The properties for the responses sent per status. */
  function OutResponsesProperties(ts: Timespan): seq<Property> {
    [
      U64("OutResponses200", ts.outResponses200),
      U64("OutResponses301", ts.outResponses301),
      U64("OutResponses302", ts.outResponses302),
      U64("OutResponses401", ts.outResponses401),
      U64("OutResponses403", ts.outResponses403),
      U64("OutResponses404", ts.outResponses404),
      U64("OutResponses500", ts.outResponses500)
    ]
  }

  method AddOutResponses(bean: Bean, ts: Timespan)
    modifies bean
    ensures bean.objectname == old(bean.objectname)
    ensures bean.properties == old(bean.properties) + OutResponsesProperties(ts)
  {
    bean.AddProperty(U64("OutResponses200", ts.outResponses200));
    bean.AddProperty(U64("OutResponses301", ts.outResponses301));
    bean.AddProperty(U64("OutResponses302", ts.outResponses302));
    bean.AddProperty(U64("OutResponses401", ts.outResponses401));
    bean.AddProperty(U64("OutResponses403", ts.outResponses403));
    bean.AddProperty(U64("OutResponses404", ts.outResponses404));
    bean.AddProperty(U64("OutResponses500", ts.outResponses500));
  }

  /** The properties for the totals. */
  function TotalProperties(ts: Timespan): seq<Property> {
    [
      U64("InLowBytes", ts.inLowBytes),
      U64("OutLowBytes", ts.outLowBytes),
      U64("InRequests", ts.inRequests),
      U64("OutResponses", ts.outResponses)
    ]
  }

  method AddTotals(bean: Bean, ts: Timespan)
    modifies bean
    ensures bean.objectname == old(bean.objectname)
    ensures bean.properties == old(bean.properties) + TotalProperties(ts)
  {
    bean.AddProperty(U64("InLowBytes", ts.inLowBytes));
    bean.AddProperty(U64("OutLowBytes", ts.outLowBytes));
    bean.AddProperty(U64("InRequests", ts.inRequests));
    bean.AddProperty(U64("OutResponses", ts.outResponses));
  }

  /** The 26 counters of a timespan as properties, in the order print_vhost_bean adds them. */
  function CounterProperties(ts: Timespan): seq<Property> {
    InBytesProperties(ts) + InRequestsProperties(ts) + OutBytesProperties(ts) +
    OutResponsesProperties(ts) + TotalProperties(ts)
  }

  /**
   * The bean of one window: the counters, then StartDate (the start time
   * as formatted by `httpTime`), StartTime, and StartElapsed = now minus
   * StartTime, each as apr_uint64_t.
   */
  function VhostBean(on: Objectname, ts: Timespan, now: int, httpTime: int -> string): BeanValue {
    BeanValue(on, CounterProperties(ts) + [
      StringProperty("StartDate", httpTime(ts.startTime)),
      U64("StartTime", ts.startTime),
      U64("StartElapsed", now - ts.startTime)])
  }

  /** print_vhost_bean: the bean built property by property and handed to the printer. */
  method PrintVhostBean(on: Objectname, ts: Timespan, now: int, httpTime: int -> string) returns (b: BeanValue)
    ensures b == VhostBean(on, ts, now, httpTime)
  {
    var bean := new Bean.Init(on);
    AddInBytes(bean, ts);
    AddInRequests(bean, ts);
    AddOutBytes(bean, ts);
    AddOutResponses(bean, ts);
    AddTotals(bean, ts);
    bean.AddProperty(StringProperty("StartDate", httpTime(ts.startTime)));
    bean.AddProperty(U64("StartTime", ts.startTime));
    bean.AddProperty(U64("StartElapsed", now - ts.startTime));
    b := bean.Snapshot();
  }

  predicate WindowsMatchable(c: Scfg) {
    Matchable(c.forever) && Matchable(c.sinceStart) && Matchable(c.sinceRestart)
  }

  /** The windows a query selects, in the order forever, since-start, since-restart. */
  function Selected(q: Query, c: Scfg): (sel: seq<Window>)
    ensures forall w :: w in sel <==> Matches(q, WindowOf(c, w))
    ensures |sel| <= 3
  {
    (if Matches(q, c.forever) then [Forever] else []) +
    (if Matches(q, c.sinceStart) then [SinceStart] else []) +
    (if Matches(q, c.sinceRestart) then [SinceRestart] else [])
  }

  function WindowData(v: VhostData, w: Window): Timespan {
    match w
    case Forever => v.forever
    case SinceStart => v.sinceStart
    case SinceRestart => v.sinceRestart
  }

  /** The beans of the selected windows of a record, in the order selected. */
  function Beans(c: Scfg, v: VhostData, sel: seq<Window>, now: int, httpTime: int -> string): (bs: seq<BeanValue>)
    ensures |bs| == |sel|
  {
    if sel == [] then [] else [VhostBean(WindowOf(c, sel[0]), WindowData(v, sel[0]), now, httpTime)] + Beans(c, v, sel[1..], now, httpTime)
  }

  /** The apr_status_t of each call in process_vhost_query. */
  datatype QueryStatuses = QueryStatuses(lock: int, open: int, fetch: int, unlock: int)

  /**
   * process_vhost_query: DECLINED without touching the DBM when no window
   * is selected; a 500 with nothing printed when a call fails or the
   * record is missing; otherwise OK and the selected windows' beans.
   */
  function QueryResult(db: Records, q: Query, c: Scfg, st: QueryStatuses, now: int, httpTime: int -> string): HookResult
    requires WellSized(db, c.key)
  {
    var sel := Selected(q, c);
    if sel == [] then HookResult(DECLINED, [])
    else if st.lock != APR_SUCCESS || st.open != APR_SUCCESS || st.fetch != APR_SUCCESS || c.key !in db
         || st.unlock != APR_SUCCESS then
      HookResult(HTTP_INTERNAL_SERVER_ERROR, [])
    else HookResult(OK, Beans(c, db[c.key].data, sel, now, httpTime))
  }

  /** The status of process_vhost_query is OK exactly when it printed something, DECLINED or 500 otherwise. */
  lemma QueryResultShape(db: Records, q: Query, c: Scfg, st: QueryStatuses, now: int, httpTime: int -> string)
    requires WellSized(db, c.key)
    ensures var res := QueryResult(db, q, c, st, now, httpTime);
            && (res.rv == OK || res.rv == DECLINED || res.rv == HTTP_INTERNAL_SERVER_ERROR)
            && (res.rv == OK <==> res.printed != [])
            && (res.rv == DECLINED <==> forall w :: !Matches(q, WindowOf(c, w)))
  {
    var sel := Selected(q, c);
    if sel != [] {
      assert sel[0] in sel;
    }
  }

  /** One more selected window appends its bean. */
  lemma {:induction false} BeansSnoc(c: Scfg, v: VhostData, sel: seq<Window>, w: Window, now: int, httpTime: int -> string)
    ensures Beans(c, v, sel + [w], now, httpTime) ==
            Beans(c, v, sel, now, httpTime) + [VhostBean(WindowOf(c, w), WindowData(v, w), now, httpTime)]
  {
    if sel != [] {
      assert (sel + [w])[1..] == sel[1..] + [w];
      BeansSnoc(c, v, sel[1..], w, now, httpTime);
    }
  }

  /** The windows whose flags are set, in window order. */
  function Flagged(forever: bool, sinceStart: bool, sinceRestart: bool): seq<Window> {
    (if forever then [Forever] else []) + (if sinceStart then [SinceStart] else []) +
    (if sinceRestart then [SinceRestart] else [])
  }

  /** One `if (window) print_vhost_bean(...)` step. */
  method PrintIf(flag: bool, c: Scfg, v: VhostData, w: Window, now: int, httpTime: int -> string,
                 printed0: seq<BeanValue>, ghost sel: seq<Window>) returns (printed: seq<BeanValue>)
    requires printed0 == Beans(c, v, sel, now, httpTime)
    ensures printed == Beans(c, v, sel + (if flag then [w] else []), now, httpTime)
  {
    printed := printed0;
    if flag {
      var b := PrintVhostBean(WindowOf(c, w), WindowData(v, w), now, httpTime);
      BeansSnoc(c, v, sel, w, now, httpTime);
      printed := printed + [b];
    } else {
      assert sel + [] == sel;
    }
  }

  /** Print the beans of the selected windows of a fetched record, in window order. */
  method PrintSelected(c: Scfg, v: VhostData, forever: bool, sinceStart: bool, sinceRestart: bool,
                       now: int, httpTime: int -> string) returns (printed: seq<BeanValue>)
    ensures printed == Beans(c, v, Flagged(forever, sinceStart, sinceRestart), now, httpTime)
  {
    printed := PrintIf(forever, c, v, Forever, now, httpTime, [], []);
    ghost var sel := [] + (if forever then [Forever] else []);
    printed := PrintIf(sinceStart, c, v, SinceStart, now, httpTime, printed, sel);
    sel := sel + (if sinceStart then [SinceStart] else []);
    printed := PrintIf(sinceRestart, c, v, SinceRestart, now, httpTime, printed, sel);
    sel := sel + (if sinceRestart then [SinceRestart] else []);
    assert sel == Flagged(forever, sinceStart, sinceRestart);
  }

  /**
   * process_vhost_query: match the three windows, and only if one is
   * selected fetch the record under the lock; the lock is released before
   * any bean is printed.
   */
  method ProcessVhostQuery(dbm: Dbm, q: Query, c: Scfg, st: QueryStatuses, now: int, httpTime: int -> string)
    returns (res: HookResult)
    requires Parsed(q) && WindowsMatchable(c)
    requires !dbm.locked && !dbm.isOpen && WellSized(dbm.records, c.key)
    modifies dbm
    ensures res == QueryResult(old(dbm.records), q, c, st, now, httpTime)
    ensures dbm.records == old(dbm.records) && !dbm.isOpen
    ensures dbm.locked <==> Selected(q, c) != [] && st.lock == APR_SUCCESS && st.unlock != APR_SUCCESS
  {
    var forever := Select(q, c.forever);
    var sinceStart := Select(q, c.sinceStart);
    var sinceRestart := Select(q, c.sinceRestart);
    if !(forever || sinceStart || sinceRestart) {
      return HookResult(DECLINED, []);
    }
    var rv := dbm.Lock(st.lock);
    if rv != APR_SUCCESS {
      return HookResult(HTTP_INTERNAL_SERVER_ERROR, []);
    }
    rv := dbm.Open(st.open);
    if rv != APR_SUCCESS {
      Release(dbm, false, st.unlock);
      return HookResult(HTTP_INTERNAL_SERVER_ERROR, []);
    }
    var value;
    rv, value := dbm.Fetch(c.key, st.fetch);
    if rv != APR_SUCCESS || value.None? {
      Release(dbm, true, st.unlock);
      return HookResult(HTTP_INTERNAL_SERVER_ERROR, []);
    }
    var data := value.value.data;
    dbm.Close();
    rv := dbm.Unlock(st.unlock);
    if rv != APR_SUCCESS {
      return HookResult(HTTP_INTERNAL_SERVER_ERROR, []);
    }
    var printed := PrintSelected(c, data, forever, sinceStart, sinceRestart, now, httpTime);
    res := HookResult(OK, printed);
  }

  /** A vhost's server config: its windows and key, and its info bean (not kept in the DBM). */
  datatype VhostConfig = VhostConfig(scfg: Scfg, info: BeanValue)

  /** The configs the hook may query: matchable objectnames and whole records under their keys. */
  predicate HookReady(db: Records, global: Scfg, vhosts: seq<VhostConfig>) {
    && WindowsMatchable(global) && WellSized(db, global.key)
    && forall i :: 0 <= i < |vhosts| ==>
         WindowsMatchable(vhosts[i].scfg) && Matchable(vhosts[i].info.objectname) && WellSized(db, vhosts[i].scfg.key)
  }

  /**
   * One vhost of the loop of bmx_vhost_query_hook, from status rv (OK or
   * DECLINED) and the beans printed so far: the vhost's windows, then its
   * info bean if the query matches it. A failing window query gives its
   * status; otherwise the status is OK once anything was printed.
   */
  function VisitOne(db: Records, q: Query, v: VhostConfig, st: QueryStatuses, now: int,
                    httpTime: int -> string, rv: int, printed: seq<BeanValue>): HookResult
    requires WellSized(db, v.scfg.key)
  {
    var r2 := QueryResult(db, q, v.scfg, st, now, httpTime);
    if r2.rv != OK && r2.rv != DECLINED then HookResult(r2.rv, printed)
    else
      var rv1 := if r2.rv == OK then OK else rv;
      var p1 := printed + r2.printed;
      if Matches(q, v.info.objectname) then HookResult(OK, p1 + [v.info]) else HookResult(rv1, p1)
  }

  /** Whether a step's status ends the loop: anything but OK and DECLINED. */
  predicate Stops(rv: int) {
    rv != OK && rv != DECLINED
  }

  /**
   * The loop over the vhosts from the i-th on; the i-th vhost's calls
   * return the statuses sts[i + 1]. The first failing vhost ends it.
   */
  function Visit(db: Records, q: Query, vhosts: seq<VhostConfig>, sts: seq<QueryStatuses>, i: nat, now: int,
                 httpTime: int -> string, rv: int, printed: seq<BeanValue>): HookResult
    requires i <= |vhosts| && |sts| == |vhosts| + 1
    requires forall j :: 0 <= j < |vhosts| ==> WellSized(db, vhosts[j].scfg.key)
    decreases |vhosts| - i
  {
    if i == |vhosts| then HookResult(rv, printed)
    else
      var r := VisitOne(db, q, vhosts[i], sts[i + 1], now, httpTime, rv, printed);
      if Stops(r.rv) then r else Visit(db, q, vhosts, sts, i + 1, now, httpTime, r.rv, r.printed)
  }

  /** bmx_vhost_query_hook: the global record first, then the vhosts. */
  function HookOf(db: Records, q: Query, global: Scfg, vhosts: seq<VhostConfig>, sts: seq<QueryStatuses>,
                  now: int, httpTime: int -> string): HookResult
    requires |sts| == |vhosts| + 1
    requires HookReady(db, global, vhosts)
  {
    var g := QueryResult(db, q, global, sts[0], now, httpTime);
    if Stops(g.rv) then g
    else Visit(db, q, vhosts, sts, 0, now, httpTime, g.rv, g.printed)
  }

  /** The body of the loop of bmx_vhost_query_hook for one vhost. */
  method QueryVhost(dbm: Dbm, q: Query, v: VhostConfig, st: QueryStatuses, now: int, httpTime: int -> string,
                    rv: int, printed: seq<BeanValue>) returns (res: HookResult)
    requires Parsed(q) && WindowsMatchable(v.scfg) && Matchable(v.info.objectname)
    requires !dbm.locked && !dbm.isOpen && WellSized(dbm.records, v.scfg.key)
    modifies dbm
    ensures res == VisitOne(old(dbm.records), q, v, st, now, httpTime, rv, printed)
    ensures dbm.records == old(dbm.records) && !dbm.isOpen
    ensures dbm.locked ==> res.rv == HTTP_INTERNAL_SERVER_ERROR
  {
    var rv' := rv;
    var r2 := ProcessVhostQuery(dbm, q, v.scfg, st, now, httpTime);
    if r2.rv == OK {
      rv' := OK;
    } else if r2.rv != DECLINED {
      return HookResult(r2.rv, printed);
    }
    var printed' := printed + r2.printed;
    var m := Select(q, v.info.objectname);
    if m {
      printed' := printed' + [v.info];
      rv' := OK;
    }
    res := HookResult(rv', printed');
  }

  method QueryHook(dbm: Dbm, q: Query, global: Scfg, vhosts: seq<VhostConfig>, sts: seq<QueryStatuses>,
                   now: int, httpTime: int -> string) returns (res: HookResult)
    requires Parsed(q) && |sts| == |vhosts| + 1
    requires HookReady(dbm.records, global, vhosts)
    requires !dbm.locked && !dbm.isOpen
    modifies dbm
    ensures res == HookOf(old(dbm.records), q, global, vhosts, sts, now, httpTime)
    ensures dbm.records == old(dbm.records) && !dbm.isOpen
    ensures dbm.locked ==> res.rv == HTTP_INTERNAL_SERVER_ERROR
  {
    ghost var db := dbm.records;
    res := ProcessVhostQuery(dbm, q, global, sts[0], now, httpTime);
    if Stops(res.rv) {
      return;
    }
    var i := 0;
    while i < |vhosts|
      invariant 0 <= i <= |vhosts|
      invariant !dbm.locked && !dbm.isOpen && dbm.records == db
      invariant !Stops(res.rv)
      invariant Visit(db, q, vhosts, sts, i, now, httpTime, res.rv, res.printed) ==
                HookOf(db, q, global, vhosts, sts, now, httpTime)
    {
      res := QueryVhost(dbm, q, vhosts[i], sts[i + 1], now, httpTime, res.rv, res.printed);
      if Stops(res.rv) {
        return;
      }
      i := i + 1;
    }
  }

  /** From a consistent start, the loop ends OK with beans, DECLINED with none, or 500. */
  lemma {:induction false} VisitShape(db: Records, q: Query, vhosts: seq<VhostConfig>, sts: seq<QueryStatuses>, i: nat,
                                       now: int, httpTime: int -> string, rv: int, printed: seq<BeanValue>)
    requires i <= |vhosts| && |sts| == |vhosts| + 1
    requires forall j :: 0 <= j < |vhosts| ==> WellSized(db, vhosts[j].scfg.key)
    requires rv == OK || rv == DECLINED
    requires rv == OK <==> printed != []
    ensures var res := Visit(db, q, vhosts, sts, i, now, httpTime, rv, printed);
            && (res.rv == OK || res.rv == DECLINED || res.rv == HTTP_INTERNAL_SERVER_ERROR)
            && (res.rv == OK ==> res.printed != [])
            && (res.rv == DECLINED ==> res.printed == [])
    decreases |vhosts| - i
  {
    if i < |vhosts| {
      var r := VisitOne(db, q, vhosts[i], sts[i + 1], now, httpTime, rv, printed);
      QueryResultShape(db, q, vhosts[i].scfg, sts[i + 1], now, httpTime);
      if !Stops(r.rv) {
        VisitShape(db, q, vhosts, sts, i + 1, now, httpTime, r.rv, r.printed);
      }
    }
  }

  /**
   * The hook returns OK when it printed at least one bean, DECLINED when
   * it printed none, and otherwise the 500 of the first failing vhost.
   */
  lemma HookShape(db: Records, q: Query, global: Scfg, vhosts: seq<VhostConfig>, sts: seq<QueryStatuses>,
                  now: int, httpTime: int -> string)
    requires |sts| == |vhosts| + 1
    requires HookReady(db, global, vhosts)
    ensures var res := HookOf(db, q, global, vhosts, sts, now, httpTime);
            && (res.rv == OK || res.rv == DECLINED || res.rv == HTTP_INTERNAL_SERVER_ERROR)
            && (res.rv == OK ==> res.printed != [])
            && (res.rv == DECLINED ==> res.printed == [])
  {
    var g := QueryResult(db, q, global, sts[0], now, httpTime);
    QueryResultShape(db, q, global, sts[0], now, httpTime);
    if !Stops(g.rv) {
      VisitShape(db, q, vhosts, sts, 0, now, httpTime, g.rv, g.printed);
    }
  }
}
