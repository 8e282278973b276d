/**
 * The server-status provider of mod_bmx_status.c: one bean summarising
 * the scoreboard (worker states, accesses and traffic), printed when the
 * query matches mod_bmx_status:Name=ServerStatus,Type=Extended|Normal.
 */
module BmxStatus {
  import opened Wrappers
  import opened AprTable
  import opened Bmx
  import opened Matcher

  const StatusDomain := "mod_bmx_status"
  const KByte: nat := 1024

  // Worker states of the httpd 2.2 scoreboard (scoreboard.h).
  const SERVER_DEAD: int := 0
  const SERVER_STARTING: int := 1
  const SERVER_READY: int := 2
  const SERVER_IDLE_KILL: int := 10

  /** A worker slot: its state, its access count and the bytes it served. */
  datatype Worker = Worker(status: int, accessCount: nat, bytesServed: nat)

  /** A process slot and the thread_limit worker slots it owns. */
  datatype Process = Process(pid: int, quiescing: bool, generation: int, workers: seq<Worker>)

  /** The scoreboard image: server_limit process slots and the last restart (microseconds). */
  datatype Scoreboard = Scoreboard(procs: seq<Process>, restartTime: int)

  /** The hard limits read by bmx_status_init. */
  datatype Limits = Limits(serverLimit: nat, threadLimit: nat)

  /**
   * What the hook reads from the running server: the scoreboard (None in
   * inetd mode), ap_my_generation, ap_extended_status, the clock, the
   * server's name and build strings, and ap_ht_time.
   */
  datatype StatusEnv = StatusEnv(
    scoreboard: Option<Scoreboard>,
    generation: Int32,
    extended: bool,
    now: int,
    serverName: string,
    serverVersion: string,
    serverBuilt: string,
    htTime: int -> string)

  /** Every process slot holds exactly thread_limit worker slots. */
  predicate Shaped(procs: seq<Process>, lim: Limits) {
    |procs| == lim.serverLimit && forall i :: 0 <= i < |procs| ==> |procs[i].workers| == lim.threadLimit
  }

  /** The value the objectname's Type key takes. */
  function TypeName(extended: bool): string {
    if extended then "Extended" else "Normal"
  }

  /** The objectname bmx_status_pre_config builds, from ap_extended_status at that time. */
  function StatusObjectname(extended: bool): (on: Objectname)
    ensures on.domain == Some(StatusDomain)
    ensures on.props == Some([("Name", "ServerStatus"), ("Type", TypeName(extended))])
  {
    assert Get([], "Name").None?;
    var t1 := Set([], "Name", "ServerStatus");
    assert t1 == [("Name", "ServerStatus")];
    assert t1[0].0 != "Type";
    assert Get(t1, "Type").None?;
    var t2 := Set(t1, "Type", TypeName(extended));
    assert t2 == t1 + [("Type", TypeName(extended))];
    assert t2[0] == ("Name", "ServerStatus") && t2[1] == ("Type", TypeName(extended)) && |t2| == 2;
    assert t2 == [("Name", "ServerStatus"), ("Type", TypeName(extended))];
    Objectname(Some(StatusDomain), Some(t2))
  }

  // ---------------------------------------------------------------------
  // The scoreboard walk
  // ---------------------------------------------------------------------

  /** The running totals of the walk: ready, busy, count, bcount, kbcount. */
  datatype Tally = Tally(ready: nat, busy: nat, count: nat, bcount: nat, kbcount: nat)

  const NoTally := Tally(0, 0, 0, 0, 0)

  /** A process whose workers are counted as ready or busy: not quiescing, with a pid. */
  predicate Counted(p: Process) {
    !p.quiescing && p.pid != 0
  }

  /** Under extended status, the workers whose accesses and bytes are added up. */
  predicate Accumulates(extended: bool, w: Worker) {
    extended && (w.accessCount != 0 || (w.status != SERVER_READY && w.status != SERVER_DEAD))
  }

  /** One iteration of the inner loop, on worker w of process p. */
  function Step(t: Tally, p: Process, w: Worker, gen: int, extended: bool): Tally {
    var ready := if Counted(p) && w.status == SERVER_READY && p.generation == gen then t.ready + 1 else t.ready;
    var busy :=
      if Counted(p) && !(w.status == SERVER_READY && p.generation == gen)
         && w.status != SERVER_DEAD && w.status != SERVER_STARTING && w.status != SERVER_IDLE_KILL
      then t.busy + 1 else t.busy;
    if Accumulates(extended, w) then
      var b := t.bcount + w.bytesServed;
      if b >= KByte then Tally(ready, busy, t.count + w.accessCount, b % KByte, t.kbcount + b / KByte)
      else Tally(ready, busy, t.count + w.accessCount, b, t.kbcount)
    else Tally(ready, busy, t.count, t.bcount, t.kbcount)
  }

  /** The inner loop over the workers ws of process p, from tally t. */
  function TallyRow(t: Tally, p: Process, ws: seq<Worker>, gen: int, extended: bool): Tally
    decreases |ws|
  {
    if ws == [] then t
    else Step(TallyRow(t, p, ws[..|ws| - 1], gen, extended), p, ws[|ws| - 1], gen, extended)
  }

  /** The outer loop over the processes ps, from tally t. */
  function TallyAll(t: Tally, ps: seq<Process>, gen: int, extended: bool): Tally
    decreases |ps|
  {
    if ps == [] then t
    else
      var last := ps[|ps| - 1];
      TallyRow(TallyAll(t, ps[..|ps| - 1], gen, extended), last, last.workers, gen, extended)
  }

  /**
   * The walk of bmx_status_query_hook over the process slots. The C code
   * shifts right by 10 and masks with 0x3ff; on the non-negative byte
   * counts these are division and remainder by 1024.
   */
  method ScanScoreboard(procs: seq<Process>, lim: Limits, gen: int, extended: bool) returns (t: Tally)
    requires Shaped(procs, lim)
    ensures t == TallyAll(NoTally, procs, gen, extended)
  {
    t := NoTally;
    for i := 0 to lim.serverLimit
      invariant t == TallyAll(NoTally, procs[..i], gen, extended)
    {
      t := ScanProcess(t, procs[i], lim.threadLimit, gen, extended);
      assert procs[..i + 1][..i] == procs[..i];
    }
    assert procs[..lim.serverLimit] == procs;
  }

  /** The inner loop over the thread_limit worker slots of one process. */
  method ScanProcess(t0: Tally, ps: Process, threadLimit: nat, gen: int, extended: bool) returns (t: Tally)
    requires |ps.workers| == threadLimit
    ensures t == TallyRow(t0, ps, ps.workers, gen, extended)
  {
    t := t0;
    for j := 0 to threadLimit
      invariant t == TallyRow(t0, ps, ps.workers[..j], gen, extended)
    {
      t := ScanWorker(t, ps, ps.workers[j], gen, extended);
      assert ps.workers[..j + 1][..j] == ps.workers[..j];
    }
    assert ps.workers[..threadLimit] == ps.workers;
  }

  /** One worker slot: count it as ready or busy, then add its accesses and bytes. */
  method ScanWorker(t: Tally, ps: Process, ws: Worker, gen: int, extended: bool) returns (t': Tally)
    ensures t' == Step(t, ps, ws, gen, extended)
  {
    var ready, busy, count, bcount, kbcount := t.ready, t.busy, t.count, t.bcount, t.kbcount;
    var res := ws.status;
    if !ps.quiescing && ps.pid != 0 {
      if res == SERVER_READY && ps.generation == gen {
        ready := ready + 1;
      } else if res != SERVER_DEAD && res != SERVER_STARTING && res != SERVER_IDLE_KILL {
        busy := busy + 1;
      }
    }
    if extended {
      var lres := ws.accessCount;
      var bytes := ws.bytesServed;
      if lres != 0 || (res != SERVER_READY && res != SERVER_DEAD) {
        count := count + lres;
        bcount := bcount + bytes;
        if bcount >= KByte {
          kbcount := kbcount + bcount / KByte;
          bcount := bcount % KByte;
        }
      }
    }
    t' := Tally(ready, busy, count, bcount, kbcount);
  }

  // ---------------------------------------------------------------------
  // What the walk counts, stated independently of the loop
  // ---------------------------------------------------------------------

  /** The number of workers in state READY. */
  function CountReady(ws: seq<Worker>): (n: nat)
    ensures n <= |ws|
    decreases |ws|
  {
    if ws == [] then 0
    else CountReady(ws[..|ws| - 1]) + (if ws[|ws| - 1].status == SERVER_READY then 1 else 0)
  }

  /**
   * A state that counts as busy: anything but DEAD, STARTING and
   * IDLE_KILL, and READY too when the process is of an older generation.
   */
  predicate BusyState(s: int, current: bool) {
    s != SERVER_DEAD && s != SERVER_STARTING && s != SERVER_IDLE_KILL && (s == SERVER_READY ==> !current)
  }

  /** The number of workers in a busy state. */
  function CountBusy(ws: seq<Worker>, current: bool): (n: nat)
    ensures n <= |ws|
    decreases |ws|
  {
    if ws == [] then 0
    else CountBusy(ws[..|ws| - 1], current) + (if BusyState(ws[|ws| - 1].status, current) then 1 else 0)
  }

  /** Idle workers: READY ones in counted processes of the current generation. */
  function ReadyWorkers(ps: seq<Process>, gen: int): nat
    decreases |ps|
  {
    if ps == [] then 0
    else
      var p := ps[|ps| - 1];
      ReadyWorkers(ps[..|ps| - 1], gen) + (if Counted(p) && p.generation == gen then CountReady(p.workers) else 0)
  }

  /** Busy workers: those in a busy state in counted processes. */
  function BusyWorkers(ps: seq<Process>, gen: int): nat
    decreases |ps|
  {
    if ps == [] then 0
    else
      var p := ps[|ps| - 1];
      BusyWorkers(ps[..|ps| - 1], gen) + (if Counted(p) then CountBusy(p.workers, p.generation == gen) else 0)
  }

  /** The worker slots of the counted processes. */
  function LiveSlots(ps: seq<Process>): nat
    decreases |ps|
  {
    if ps == [] then 0
    else LiveSlots(ps[..|ps| - 1]) + (if Counted(ps[|ps| - 1]) then |ps[|ps| - 1].workers| else 0)
  }

  /** The accesses of the workers that accumulate. */
  function RowAccesses(ws: seq<Worker>, extended: bool): nat
    decreases |ws|
  {
    if ws == [] then 0
    else
      var w := ws[|ws| - 1];
      RowAccesses(ws[..|ws| - 1], extended) + (if Accumulates(extended, w) then w.accessCount else 0)
  }

  /** The bytes served by the workers that accumulate. */
  function RowBytes(ws: seq<Worker>, extended: bool): nat
    decreases |ws|
  {
    if ws == [] then 0
    else
      var w := ws[|ws| - 1];
      RowBytes(ws[..|ws| - 1], extended) + (if Accumulates(extended, w) then w.bytesServed else 0)
  }

  function Accesses(ps: seq<Process>, extended: bool): nat
    decreases |ps|
  {
    if ps == [] then 0 else Accesses(ps[..|ps| - 1], extended) + RowAccesses(ps[|ps| - 1].workers, extended)
  }

  function Bytes(ps: seq<Process>, extended: bool): nat
    decreases |ps|
  {
    if ps == [] then 0 else Bytes(ps[..|ps| - 1], extended) + RowBytes(ps[|ps| - 1].workers, extended)
  }

  /** The byte carry keeps kbcount * 1024 + bcount and brings bcount below 1024. */
  lemma CarryStep(kb: nat, b: nat)
    requires b >= KByte
    ensures (kb + b / KByte) * KByte + b % KByte == kb * KByte + b
    ensures b % KByte < KByte
  {
  }

  lemma {:induction false} TallyRowCounts(t: Tally, p: Process, ws: seq<Worker>, gen: int, extended: bool)
    ensures var r := TallyRow(t, p, ws, gen, extended);
            && r.ready == t.ready + (if Counted(p) && p.generation == gen then CountReady(ws) else 0)
            && r.busy == t.busy + (if Counted(p) then CountBusy(ws, p.generation == gen) else 0)
    decreases |ws|
  {
    if ws != [] {
      TallyRowCounts(t, p, ws[..|ws| - 1], gen, extended);
    }
  }

  lemma {:induction false} TallyRowCarry(t: Tally, p: Process, ws: seq<Worker>, gen: int, extended: bool)
    requires t.bcount < KByte
    ensures var r := TallyRow(t, p, ws, gen, extended);
            && r.bcount < KByte
            && r.kbcount * KByte + r.bcount == t.kbcount * KByte + t.bcount + RowBytes(ws, extended)
            && r.count == t.count + RowAccesses(ws, extended)
    decreases |ws|
  {
    if ws != [] {
      var w := ws[|ws| - 1];
      TallyRowCarry(t, p, ws[..|ws| - 1], gen, extended);
      var r0 := TallyRow(t, p, ws[..|ws| - 1], gen, extended);
      if Accumulates(extended, w) && r0.bcount + w.bytesServed >= KByte {
        CarryStep(r0.kbcount, r0.bcount + w.bytesServed);
      }
    }
  }

  /**
   * The walk's ready and busy counts are the idle and busy workers of the
   * counted processes; an old-generation READY worker is busy.
   */
  lemma {:induction false} TallyCounts(t: Tally, ps: seq<Process>, gen: int, extended: bool)
    ensures var r := TallyAll(t, ps, gen, extended);
            r.ready == t.ready + ReadyWorkers(ps, gen) && r.busy == t.busy + BusyWorkers(ps, gen)
    decreases |ps|
  {
    if ps != [] {
      var last := ps[|ps| - 1];
      TallyCounts(t, ps[..|ps| - 1], gen, extended);
      TallyRowCounts(TallyAll(t, ps[..|ps| - 1], gen, extended), last, last.workers, gen, extended);
    }
  }

  /**
   * The byte carry: after the walk bcount is below 1024 and
   * kbcount * 1024 + bcount is the byte total of the accumulating
   * workers; count is their access total.
   */
  lemma {:induction false} TallyCarry(t: Tally, ps: seq<Process>, gen: int, extended: bool)
    requires t.bcount < KByte
    ensures var r := TallyAll(t, ps, gen, extended);
            && r.bcount < KByte
            && r.kbcount * KByte + r.bcount == t.kbcount * KByte + t.bcount + Bytes(ps, extended)
            && r.count == t.count + Accesses(ps, extended)
    decreases |ps|
  {
    if ps != [] {
      var last := ps[|ps| - 1];
      TallyCarry(t, ps[..|ps| - 1], gen, extended);
      TallyRowCarry(TallyAll(t, ps[..|ps| - 1], gen, extended), last, last.workers, gen, extended);
    }
  }

  /** A worker is never both idle and busy. */
  lemma {:induction false} ReadyBusyDisjoint(ws: seq<Worker>, current: bool)
    ensures (if current then CountReady(ws) else 0) + CountBusy(ws, current) <= |ws|
    decreases |ws|
  {
    if ws != [] {
      ReadyBusyDisjoint(ws[..|ws| - 1], current);
    }
  }

  lemma {:induction false} ReadyBusyLive(ps: seq<Process>, gen: int)
    ensures ReadyWorkers(ps, gen) + BusyWorkers(ps, gen) <= LiveSlots(ps)
    decreases |ps|
  {
    if ps != [] {
      var p := ps[|ps| - 1];
      ReadyBusyLive(ps[..|ps| - 1], gen);
      ReadyBusyDisjoint(p.workers, p.generation == gen);
    }
  }

  lemma {:induction false} LiveSlotsBound(ps: seq<Process>, threadLimit: nat)
    requires forall i :: 0 <= i < |ps| ==> |ps[i].workers| == threadLimit
    ensures LiveSlots(ps) <= |ps| * threadLimit
    decreases |ps|
  {
    if ps != [] {
      LiveSlotsBound(ps[..|ps| - 1], threadLimit);
    }
  }

  /** Only counted processes contribute, so ready + busy <= server_limit * thread_limit. */
  lemma ReadyBusyBound(procs: seq<Process>, lim: Limits, gen: int, extended: bool)
    requires Shaped(procs, lim)
    ensures var t := TallyAll(NoTally, procs, gen, extended);
            t.ready + t.busy <= LiveSlots(procs) <= lim.serverLimit * lim.threadLimit
  {
    TallyCounts(NoTally, procs, gen, extended);
    ReadyBusyLive(procs, gen);
    LiveSlotsBound(procs, lim.threadLimit);
  }

  /** Without extended status nothing is accumulated. */
  lemma {:induction false} NoExtendedNoTraffic(ps: seq<Process>, gen: int)
    ensures var t := TallyAll(NoTally, ps, gen, false);
            t.count == 0 && t.bcount == 0 && t.kbcount == 0
  {
    TallyCarry(NoTally, ps, gen, false);
    NoAccumulation(ps);
  }

  lemma {:induction false} NoAccumulation(ps: seq<Process>)
    ensures Accesses(ps, false) == 0 && Bytes(ps, false) == 0
    decreases |ps|
  {
    if ps != [] {
      NoAccumulation(ps[..|ps| - 1]);
      NoRowAccumulation(ps[|ps| - 1].workers);
    }
  }

  lemma {:induction false} NoRowAccumulation(ws: seq<Worker>)
    ensures RowAccesses(ws, false) == 0 && RowBytes(ws, false) == 0
    decreases |ws|
  {
    if ws != [] {
      NoRowAccumulation(ws[..|ws| - 1]);
    }
  }

  // ---------------------------------------------------------------------
  // The bean and the hook
  // ---------------------------------------------------------------------

  /** apr_time_sec: microseconds to seconds, truncating toward zero as C does. */
  function TimeSec(t: int): (s: int)
    ensures t >= 0 ==> 0 <= s * 1000000 <= t < (s + 1) * 1000000
    ensures t < 0 ==> s <= 0
  {
    if t >= 0 then t / 1000000 else -((-t) / 1000000)
  }

  /** The properties every status bean starts with. */
  function ServerProperties(env: StatusEnv, sb: Scoreboard, upTime: int): seq<Property> {
    [
      StringProperty("ServerName", env.serverName),
      StringProperty("ServerVersion", env.serverVersion),
      StringProperty("ServerBuilt", env.serverBuilt),
      StringProperty("CurrentTime", env.htTime(env.now)),
      StringProperty("RestartTime", env.htTime(sb.restartTime)),
      Property("ParentServerGeneration", Int32Value(env.generation)),
      U64("ServerUptimeSeconds", upTime)
    ]
  }

  /**
   * The extended-status properties. The rates are computed exactly, and
   * only where the source guards them: per second when the uptime is
   * positive, per request when there was a request.
   */
  function ExtendedProperties(t: Tally, upTime: int): seq<Property> {
    [U64("TotalAccesses", t.count), U64("TotalTrafficKilobytes", t.kbcount)]
    + (if upTime > 0 then
         [Property("ReqPerSec", FloatValue(t.count as real / upTime as real)),
          Property("KilobytesPerSec", FloatValue(((KByte * t.kbcount) / upTime) as real))]
       else [])
    + (if t.count > 0 then [U64("KilobytesPerReq", (KByte * t.kbcount) / t.count)] else [])
  }

  /** The two properties every status bean ends with. */
  function WorkerProperties(t: Tally): seq<Property> {
    [Property("BusyWorkers", UInt32Value(Wrap32(t.busy))), Property("IdleWorkers", UInt32Value(Wrap32(t.ready)))]
  }

  function StatusProperties(env: StatusEnv, sb: Scoreboard, t: Tally): seq<Property> {
    var upTime := TimeSec(env.now - sb.restartTime);
    ServerProperties(env, sb, upTime)
    + (if env.extended then ExtendedProperties(t, upTime) else [])
    + WorkerProperties(t)
  }

  /** bmx_status_query_hook, given the objectname built at pre-config time. */
  function StatusHook(q: Query, on: Objectname, env: StatusEnv): HookResult {
    if !Matches(q, on) then HookResult(DECLINED, [])
    else if env.scoreboard.None? then HookResult(HTTP_INTERNAL_SERVER_ERROR, [])
    else
      var sb := env.scoreboard.value;
      var t := TallyAll(NoTally, sb.procs, env.generation, env.extended);
      HookResult(OK, [BeanValue(on, StatusProperties(env, sb, t))])
  }

  method AddServerProperties(bean: Bean, env: StatusEnv, sb: Scoreboard, upTime: int)
    modifies bean
    ensures bean.objectname == old(bean.objectname)
    ensures bean.properties == old(bean.properties) + ServerProperties(env, sb, upTime)
  {
    bean.AddProperty(StringProperty("ServerName", env.serverName));
    bean.AddProperty(StringProperty("ServerVersion", env.serverVersion));
    bean.AddProperty(StringProperty("ServerBuilt", env.serverBuilt));
    bean.AddProperty(StringProperty("CurrentTime", env.htTime(env.now)));
    bean.AddProperty(StringProperty("RestartTime", env.htTime(sb.restartTime)));
    bean.AddProperty(Property("ParentServerGeneration", Int32Value(env.generation)));
    bean.AddProperty(U64("ServerUptimeSeconds", upTime));
  }

  method AddExtendedProperties(bean: Bean, t: Tally, upTime: int)
    modifies bean
    ensures bean.objectname == old(bean.objectname)
    ensures bean.properties == old(bean.properties) + ExtendedProperties(t, upTime)
  {
    bean.AddProperty(U64("TotalAccesses", t.count));
    bean.AddProperty(U64("TotalTrafficKilobytes", t.kbcount));
    if upTime > 0 {
      bean.AddProperty(Property("ReqPerSec", FloatValue(t.count as real / upTime as real)));
      bean.AddProperty(Property("KilobytesPerSec", FloatValue(((KByte * t.kbcount) / upTime) as real)));
    }
    if t.count > 0 {
      bean.AddProperty(U64("KilobytesPerReq", (KByte * t.kbcount) / t.count));
    }
  }

  method AddWorkerProperties(bean: Bean, t: Tally)
    modifies bean
    ensures bean.objectname == old(bean.objectname)
    ensures bean.properties == old(bean.properties) + WorkerProperties(t)
  {
    bean.AddProperty(Property("BusyWorkers", UInt32Value(Wrap32(t.busy))));
    bean.AddProperty(Property("IdleWorkers", UInt32Value(Wrap32(t.ready))));
  }

  /** The bean the hook builds from the tally, property by property. */
  method PrintStatusBean(on: Objectname, env: StatusEnv, sb: Scoreboard, t: Tally) returns (b: BeanValue)
    ensures b == BeanValue(on, StatusProperties(env, sb, t))
  {
    var bean := new Bean.Init(on);
    var upTime := TimeSec(env.now - sb.restartTime);
    AddServerProperties(bean, env, sb, upTime);
    if env.extended {
      AddExtendedProperties(bean, t, upTime);
    }
    AddWorkerProperties(bean, t);
    b := bean.Snapshot();
  }

  /** bmx_status_query_hook: match, walk the scoreboard, build and print one bean. */
  method StatusQueryHook(q: Query, on: Objectname, lim: Limits, env: StatusEnv) returns (res: HookResult)
    requires Parsed(q) && Matchable(on)
    requires env.scoreboard.Some? ==> Shaped(env.scoreboard.value.procs, lim)
    ensures res == StatusHook(q, on, env)
  {
    var m := Select(q, on);
    if !m {
      return HookResult(DECLINED, []);
    }
    if env.scoreboard.None? {
      return HookResult(HTTP_INTERNAL_SERVER_ERROR, []);
    }
    var sb := env.scoreboard.value;
    var t := ScanScoreboard(sb.procs, lim, env.generation, env.extended);
    var b := PrintStatusBean(on, env, sb, t);
    res := HookResult(OK, [b]);
  }

  /** The keys of a property list, in order. */
  function KeysOf(ps: seq<Property>): (ks: seq<string>)
    ensures |ks| == |ps| && forall i :: 0 <= i < |ps| ==> ks[i] == ps[i].key
  {
    seq(|ps|, i requires 0 <= i < |ps| => ps[i].key)
  }

  /**
   * The hook declines exactly the queries that do not match, answers 500
   * without a bean when there is no scoreboard, and otherwise prints one
   * bean under its objectname ending with BusyWorkers and IdleWorkers.
   */
  lemma StatusHookOutcome(q: Query, on: Objectname, env: StatusEnv)
    ensures var res := StatusHook(q, on, env);
            && (res.rv == DECLINED <==> !Matches(q, on))
            && (res.rv == HTTP_INTERNAL_SERVER_ERROR <==> Matches(q, on) && env.scoreboard.None?)
            && (res.rv == OK <==> Matches(q, on) && env.scoreboard.Some?)
            && (res.rv != OK ==> res.printed == [])
            && (res.rv == OK ==> |res.printed| == 1 && res.printed[0].objectname == on
                                 && |res.printed[0].properties| >= 9
                                 && res.printed[0].properties[..7] == ServerProperties(env, env.scoreboard.value,
                                                                        TimeSec(env.now - env.scoreboard.value.restartTime))
                                 && res.printed[0].properties[|res.printed[0].properties| - 2..] ==
                                      WorkerProperties(TallyAll(NoTally, env.scoreboard.value.procs, env.generation, env.extended)))
  {
    if Matches(q, on) && env.scoreboard.Some? {
      var sb := env.scoreboard.value;
      var t := TallyAll(NoTally, sb.procs, env.generation, env.extended);
      var upTime := TimeSec(env.now - sb.restartTime);
      var ext := if env.extended then ExtendedProperties(t, upTime) else [];
      var ps := StatusProperties(env, sb, t);
      assert ps == ServerProperties(env, sb, upTime) + ext + WorkerProperties(t);
      assert ps[..7] == ServerProperties(env, sb, upTime);
      assert ps[|ps| - 2..] == WorkerProperties(t);
    }
  }

  /**
   * The rate properties appear only under their guards: the per-second
   * rates exactly when extended status is on and the uptime is positive,
   * KilobytesPerReq exactly when it is on and some access was counted.
   */
  lemma RatesGuarded(env: StatusEnv, sb: Scoreboard, t: Tally)
    ensures var ks := KeysOf(StatusProperties(env, sb, t));
            var upTime := TimeSec(env.now - sb.restartTime);
            && ("ReqPerSec" in ks <==> env.extended && upTime > 0)
            && ("KilobytesPerSec" in ks <==> env.extended && upTime > 0)
            && ("KilobytesPerReq" in ks <==> env.extended && t.count > 0)
            && ("TotalAccesses" in ks <==> env.extended)
  {
    var upTime := TimeSec(env.now - sb.restartTime);
    GuardedKey(env, sb, t, "ReqPerSec");
    GuardedKey(env, sb, t, "KilobytesPerSec");
    GuardedKey(env, sb, t, "KilobytesPerReq");
    GuardedKey(env, sb, t, "TotalAccesses");
    if env.extended {
      ExtendedKeys(t, upTime);
      assert "KilobytesPerSec"[12] != "KilobytesPerReq"[12];
    }
  }

  /** A guarded key occurs in the bean exactly when it occurs among the extended properties. */
  lemma GuardedKey(env: StatusEnv, sb: Scoreboard, t: Tally, k: string)
    requires |k| == 9 || |k| == 15 || k == "TotalAccesses"
    ensures var upTime := TimeSec(env.now - sb.restartTime);
            k in KeysOf(StatusProperties(env, sb, t)) <==>
            env.extended && k in KeysOf(ExtendedProperties(t, upTime))
  {
    var upTime := TimeSec(env.now - sb.restartTime);
    var s := ServerProperties(env, sb, upTime);
    var e := if env.extended then ExtendedProperties(t, upTime) else [];
    var w := WorkerProperties(t);
    assert StatusProperties(env, sb, t) == s + e + w;
    KeysOfConcat(s, e);
    KeysOfConcat(s + e, w);
    OtherKeys(env, sb, upTime, t);
    assert k !in KeysOf(s) + KeysOf(w);
  }

  /** None of the guarded keys is among the first seven or the last two. */
  lemma OtherKeys(env: StatusEnv, sb: Scoreboard, upTime: int, t: Tally)
    ensures forall k :: k in KeysOf(ServerProperties(env, sb, upTime)) + KeysOf(WorkerProperties(t)) ==>
              |k| != 9 && |k| != 15 && k != "TotalAccesses"
  {
    assert KeysOf(ServerProperties(env, sb, upTime)) ==
             ["ServerName", "ServerVersion", "ServerBuilt", "CurrentTime", "RestartTime",
              "ParentServerGeneration", "ServerUptimeSeconds"];
    assert KeysOf(WorkerProperties(t)) == ["BusyWorkers", "IdleWorkers"];
    assert "ServerVersion"[0] != "TotalAccesses"[0];
  }

  lemma KeysOfConcat(a: seq<Property>, b: seq<Property>)
    ensures KeysOf(a + b) == KeysOf(a) + KeysOf(b)
  {
  }

  lemma ExtendedKeys(t: Tally, upTime: int)
    ensures KeysOf(ExtendedProperties(t, upTime)) ==
              ["TotalAccesses", "TotalTrafficKilobytes"]
              + (if upTime > 0 then ["ReqPerSec", "KilobytesPerSec"] else [])
              + (if t.count > 0 then ["KilobytesPerReq"] else [])
  {
    var base := [U64("TotalAccesses", t.count), U64("TotalTrafficKilobytes", t.kbcount)];
    var rates := if upTime > 0 then
       [Property("ReqPerSec", FloatValue(t.count as real / upTime as real)),
        Property("KilobytesPerSec", FloatValue(((KByte * t.kbcount) / upTime) as real))]
     else [];
    var perReq := if t.count > 0 then [U64("KilobytesPerReq", (KByte * t.kbcount) / t.count)] else [];
    KeysOfConcat(base, rates);
    KeysOfConcat(base + rates, perReq);
  }

  /** A query naming the Name key matches the status objectname whatever its Type. */
  lemma ServerStatusQueryMatches(extended: bool)
    ensures Matches(Named(Objectname(Some(StatusDomain), Some([("Name", "ServerStatus")]))), StatusObjectname(extended))
    ensures Matches(Named(Objectname(Some(StatusDomain), Some([("Type", TypeName(extended))]))), StatusObjectname(extended))
    ensures !Matches(Named(Objectname(Some(StatusDomain), Some([("Type", TypeName(!extended))]))), StatusObjectname(extended))
  {
    var t := StatusObjectname(extended).props.value;
    assert Get(t, "Name") == Some("ServerStatus");
    assert Get(t, "Type") == Some(TypeName(extended));
    assert TypeName(extended) != TypeName(!extended) by {
      assert TypeName(extended)[0] != TypeName(!extended)[0];
    }
    var c := [("Type", TypeName(!extended))];
    assert !Found(c[0], StatusObjectname(extended).props);
  }
}
