/**
 * The DBM file that mod_bmx_vhost keeps its counters in, the global mutex
 * around it, and the two writers of mod_bmx_vhost.c: the window resets of
 * post_config and the read-modify-write of every logged transaction.
 *
 * Each fallible APR call (lock, open, fetch, store, unlock, creating the
 * mutex) takes the apr_status_t it returns as an argument: the model covers
 * every combination of successes and failures.
 */
module VhostStore {
  import opened Wrappers
  import opened Bmx
  import opened VhostCounters
  import opened VhostNames

  /** A DBM value: a struct vhost_data of the right size, or a value of any other size. */
  datatype Blob = Record(data: VhostData) | Malformed

  type Records = map<string, Blob>

  /**
   * The value under key, if any, is a whole record. The logging and query
   * paths copy value.dsize bytes into a struct vhost_data, which is only
   * meaningful when that is the struct's size.
   */
  predicate WellSized(db: Records, key: string) {
    key in db ==> db[key].Record?
  }

  /** The DBM file, whether this process has it open, and whether it holds the global mutex. */
  class Dbm {
    var records: Records
    var isOpen: bool
    var locked: bool

    constructor (db: Records)
      ensures records == db && !isOpen && !locked
    {
      records := db;
      isOpen := false;
      locked := false;
    }

    /** apr_global_mutex_lock. */
    method Lock(status: int) returns (rv: int)
      requires !locked
      modifies this
      ensures rv == status && locked == (status == APR_SUCCESS)
      ensures records == old(records) && isOpen == old(isOpen)
    {
      rv := status;
      locked := status == APR_SUCCESS;
    }

    /** apr_global_mutex_unlock: the mutex stays held when unlocking fails. */
    method Unlock(status: int) returns (rv: int)
      requires locked
      modifies this
      ensures rv == status && locked == (status != APR_SUCCESS)
      ensures records == old(records) && isOpen == old(isOpen)
    {
      rv := status;
      locked := status != APR_SUCCESS;
    }

    /** apr_dbm_open. */
    method Open(status: int) returns (rv: int)
      requires !isOpen
      modifies this
      ensures rv == status && isOpen == (status == APR_SUCCESS)
      ensures records == old(records) && locked == old(locked)
    {
      rv := status;
      isOpen := status == APR_SUCCESS;
    }

    /** apr_dbm_close. */
    method Close()
      requires isOpen
      modifies this
      ensures !isOpen
      ensures records == old(records) && locked == old(locked)
    {
      isOpen := false;
    }

    /** apr_dbm_fetch: a successful fetch of a missing key yields a NULL value. */
    method Fetch(key: string, status: int) returns (rv: int, value: Option<Blob>)
      requires isOpen
      ensures rv == status
      ensures value == if status == APR_SUCCESS && key in records then Some(records[key]) else None
    {
      rv := status;
      value := if status == APR_SUCCESS && key in records then Some(records[key]) else None;
    }

    /** apr_dbm_store: a failed store leaves the file as it was. */
    method Store(key: string, b: Blob, status: int) returns (rv: int)
      requires isOpen
      modifies this
      ensures rv == status
      ensures records == if status == APR_SUCCESS then old(records)[key := b] else old(records)
      ensures isOpen == old(isOpen) && locked == old(locked)
    {
      rv := status;
      if status == APR_SUCCESS {
        records := records[key := b];
      }
    }
  }

  /** A status and the DBM contents an operation leaves. */
  datatype StoreResult = StoreResult(rv: int, records: Records)

  /**
   * vhost_data_reset on the open DBM: a failed fetch stores nothing; a
   * missing or wrongly sized value becomes a fresh record, an existing one
   * has its windows reset by ResetData; the status is the store's.
   */
  function Reset(db: Records, key: string, startup: bool, now: int, fetch: int, store: int): StoreResult {
    if fetch != APR_SUCCESS then StoreResult(fetch, db)
    else
      var prev := if key in db && db[key].Record? then Some(db[key].data) else None;
      StoreResult(store, if store == APR_SUCCESS then db[key := Record(ResetData(prev, startup, now))] else db)
  }

  method VhostDataReset(dbm: Dbm, key: string, startup: bool, now: int, fetch: int, store: int) returns (rv: int)
    requires dbm.isOpen
    modifies dbm
    ensures StoreResult(rv, dbm.records) == Reset(old(dbm.records), key, startup, now, fetch, store)
    ensures dbm.isOpen && dbm.locked == old(dbm.locked)
  {
    var value;
    rv, value := dbm.Fetch(key, fetch);
    if rv != APR_SUCCESS {
      return;
    }
    var data: VhostData;
    if value.None? || value.value.Malformed? {
      data := VhostData(Fresh(now), Fresh(now), Fresh(now));
    } else {
      data := value.value.data;
      if startup {
        data := data.(sinceStart := Fresh(now));
      }
      data := data.(sinceRestart := Fresh(now));
    }
    rv := dbm.Store(key, Record(data), store);
  }

  /**
   * What a complete reset leaves under its key: a record whose
   * since-restart window (and at startup its since-start window) is fresh,
   * and which keeps the forever window of a previous record; nothing else
   * changes, and a failed fetch or store changes nothing at all.
   */
  lemma ResetEffect(db: Records, key: string, startup: bool, now: int, fetch: int, store: int)
    ensures var res := Reset(db, key, startup, now, fetch, store);
            && (fetch != APR_SUCCESS || store != APR_SUCCESS ==> res.records == db && res.rv != APR_SUCCESS)
            && (fetch == APR_SUCCESS && store == APR_SUCCESS ==>
                  && res.rv == APR_SUCCESS
                  && key in res.records && res.records[key].Record?
                  && res.records[key].data.sinceRestart == Fresh(now)
                  && (startup ==> res.records[key].data.sinceStart == Fresh(now))
                  && (key in db && db[key].Record? ==> res.records[key].data.forever == db[key].data.forever)
                  && (key in db && db[key].Record? && !startup ==> res.records[key].data.sinceStart == db[key].data.sinceStart)
                  && forall k :: k != key ==> (k in res.records <==> k in db) && (k in db ==> res.records[k] == db[k]))
  {
  }

  /** The resets of post_config, key after key; the status is the last reset's. */
  function ResetAll(db: Records, keys: seq<string>, sts: seq<(int, int)>, startup: bool, now: int): StoreResult
    requires |sts| == |keys|
  {
    if keys == [] then StoreResult(APR_SUCCESS, db)
    else
      var n := |keys| - 1;
      var prev := ResetAll(db, keys[..n], sts[..n], startup, now);
      Reset(prev.records, keys[n], startup, now, sts[n].0, sts[n].1)
  }

  /** A record in db is kept up to the reset of its forever window. */
  predicate KeptForever(db: Records, res: Records, k: string) {
    k in db && db[k].Record? ==> k in res && res[k].Record? && res[k].data.forever == db[k].data.forever
  }

  /** A record fresh since now in its since-restart window (and since-start at startup). */
  predicate Restarted(res: Records, k: string, startup: bool, now: int) {
    k in res && res[k].Record? && res[k].data.sinceRestart == Fresh(now) &&
    (startup ==> res[k].data.sinceStart == Fresh(now))
  }

  /**
   * When every fetch and store succeeds, every key gets a restarted
   * record that keeps its forever window, and no other key changes.
   */
  lemma {:induction false} ResetAllEffect(db: Records, keys: seq<string>, sts: seq<(int, int)>, startup: bool, now: int)
    requires |sts| == |keys|
    requires forall i :: 0 <= i < |sts| ==> sts[i] == (APR_SUCCESS, APR_SUCCESS)
    ensures var res := ResetAll(db, keys, sts, startup, now).records;
            && (forall k :: k in keys ==> Restarted(res, k, startup, now) && KeptForever(db, res, k))
            && (forall k :: k !in keys ==> (k in res <==> k in db) && (k in db ==> res[k] == db[k]))
  {
    if keys != [] {
      var n := |keys| - 1;
      ResetAllEffect(db, keys[..n], sts[..n], startup, now);
      var prev := ResetAll(db, keys[..n], sts[..n], startup, now).records;
      ResetEffect(prev, keys[n], startup, now, APR_SUCCESS, APR_SUCCESS);
      assert keys == keys[..n] + [keys[n]];
      forall k | k in keys
        ensures Restarted(ResetAll(db, keys, sts, startup, now).records, k, startup, now)
        ensures KeptForever(db, ResetAll(db, keys, sts, startup, now).records, k)
      {
        if k != keys[n] {
          assert k in keys[..n];
        }
      }
    }
  }

  /** The three passes of post_config: the configtest/preflight pass, the first start, a restart. */
  datatype Phase = Preflight | Startup | Restart

  /** The keys create_scfg gave the vhosts, in server order. */
  function VhostKeys(servers: seq<Server>): (keys: seq<string>)
    ensures |keys| == |servers|
    ensures forall i :: 0 <= i < |servers| ==> keys[i] == VhostKey(servers[i].hostname, servers[i].port)
  {
    seq(|servers|, i requires 0 <= i < |servers| => VhostKey(servers[i].hostname, servers[i].port))
  }

  /** The keys post_config resets, in order: every vhost's, then the global one. */
  function ResetKeys(servers: seq<Server>): (keys: seq<string>)
    ensures |keys| == |servers| + 1 && keys[|servers|] == GlobalKey
    ensures forall i :: 0 <= i < |servers| ==> keys[i] == VhostKey(servers[i].hostname, servers[i].port)
  {
    VhostKeys(servers) + [GlobalKey]
  }

  /**
   * bmx_vhost_post_config: a DBM that does not open is a 500; a mutex that
   * cannot be created is a 500 after closing; the preflight pass resets
   * nothing; otherwise every vhost's record and then the global record are
   * reset, and the last reset's status is returned.
   */
  function PostConfigResult(db: Records, servers: seq<Server>, phase: Phase, now: int,
                            open: int, mutex: int, sts: seq<(int, int)>): StoreResult
    requires |sts| == |servers| + 1
  {
    if open != APR_SUCCESS then StoreResult(HTTP_INTERNAL_SERVER_ERROR, db)
    else if mutex != APR_SUCCESS then StoreResult(HTTP_INTERNAL_SERVER_ERROR, db)
    else if phase == Preflight then StoreResult(APR_SUCCESS, db)
    else ResetAll(db, ResetKeys(servers), sts, phase == Startup, now)
  }

  /** One more key: the resets of a prefix followed by the reset of that key. */
  lemma ResetAllStep(db: Records, keys: seq<string>, sts: seq<(int, int)>, startup: bool, now: int, i: nat)
    requires |sts| == |keys| && i < |keys|
    ensures ResetAll(db, keys[..i + 1], sts[..i + 1], startup, now) ==
            Reset(ResetAll(db, keys[..i], sts[..i], startup, now).records, keys[i], startup, now, sts[i].0, sts[i].1)
  {
    assert keys[..i + 1][..i] == keys[..i] && sts[..i + 1][..i] == sts[..i];
  }

  /** A reset appended to the sequence runs after all the others. */
  lemma ResetAllSnoc(db: Records, keys: seq<string>, k: string, sts: seq<(int, int)>, st: (int, int), startup: bool, now: int)
    requires |sts| == |keys|
    ensures ResetAll(db, keys + [k], sts + [st], startup, now) ==
            Reset(ResetAll(db, keys, sts, startup, now).records, k, startup, now, st.0, st.1)
  {
    assert (keys + [k])[..|keys|] == keys && (sts + [st])[..|keys|] == sts;
  }

  /** The loop of post_config: the record of every vhost reset in turn. */
  method ResetVhosts(dbm: Dbm, servers: seq<Server>, startup: bool, now: int, sts: seq<(int, int)>) returns (rv: int)
    requires |sts| == |servers|
    requires dbm.isOpen
    modifies dbm
    ensures StoreResult(rv, dbm.records) == ResetAll(old(dbm.records), VhostKeys(servers), sts, startup, now)
    ensures dbm.isOpen && dbm.locked == old(dbm.locked)
  {
    ghost var db := dbm.records;
    ghost var keys := VhostKeys(servers);
    rv := APR_SUCCESS;
    for i := 0 to |servers|
      invariant dbm.isOpen && dbm.locked == old(dbm.locked)
      invariant StoreResult(rv, dbm.records) == ResetAll(db, keys[..i], sts[..i], startup, now)
    {
      // the key create_scfg stored in the vhost's configuration
      var key := VhostKey(servers[i].hostname, servers[i].port);
      ResetAllStep(db, keys, sts, startup, now, i);
      rv := VhostDataReset(dbm, key, startup, now, sts[i].0, sts[i].1);
    }
    assert keys[..|servers|] == keys && sts[..|servers|] == sts;
  }

  /** Every vhost's record, then the global record, reset in turn. */
  method ResetAllVhosts(dbm: Dbm, servers: seq<Server>, startup: bool, now: int, sts: seq<(int, int)>) returns (rv: int)
    requires |sts| == |servers| + 1
    requires dbm.isOpen
    modifies dbm
    ensures StoreResult(rv, dbm.records) == ResetAll(old(dbm.records), ResetKeys(servers), sts, startup, now)
    ensures dbm.isOpen && dbm.locked == old(dbm.locked)
  {
    var n := |servers|;
    rv := ResetVhosts(dbm, servers, startup, now, sts[..n]);
    ResetAllSnoc(old(dbm.records), VhostKeys(servers), GlobalKey, sts[..n], sts[n], startup, now);
    assert sts[..n] + [sts[n]] == sts;
    rv := VhostDataReset(dbm, GlobalKey, startup, now, sts[n].0, sts[n].1);
  }

  method PostConfig(dbm: Dbm, servers: seq<Server>, phase: Phase, now: int,
                    open: int, mutex: int, sts: seq<(int, int)>) returns (rv: int)
    requires |sts| == |servers| + 1
    requires !dbm.isOpen
    modifies dbm
    ensures StoreResult(rv, dbm.records) == PostConfigResult(old(dbm.records), servers, phase, now, open, mutex, sts)
    ensures !dbm.isOpen && dbm.locked == old(dbm.locked)
  {
    rv := dbm.Open(open);
    if rv != APR_SUCCESS {
      return HTTP_INTERNAL_SERVER_ERROR;
    }
    if mutex != APR_SUCCESS {
      dbm.Close();
      return HTTP_INTERNAL_SERVER_ERROR;
    }
    if phase == Preflight {
      dbm.Close();
      return;
    }
    rv := ResetAllVhosts(dbm, servers, phase == Startup, now, sts);
    dbm.Close();
  }

  /**
   * The preflight pass leaves the DBM as it was; a later pass whose calls
   * all succeed restarts every vhost record and the global record, keeping
   * their forever windows, and restarts since-start only at startup.
   */
  lemma PostConfigEffect(db: Records, servers: seq<Server>, phase: Phase, now: int, sts: seq<(int, int)>)
    requires |sts| == |servers| + 1
    requires forall i :: 0 <= i < |sts| ==> sts[i] == (APR_SUCCESS, APR_SUCCESS)
    ensures PostConfigResult(db, servers, Preflight, now, APR_SUCCESS, APR_SUCCESS, sts) == StoreResult(OK, db)
    ensures phase != Preflight ==>
              var res := PostConfigResult(db, servers, phase, now, APR_SUCCESS, APR_SUCCESS, sts);
              && res.rv == OK
              && Restarted(res.records, GlobalKey, phase == Startup, now)
              && KeptForever(db, res.records, GlobalKey)
              && forall s :: s in servers ==>
                   Restarted(res.records, VhostKey(s.hostname, s.port), phase == Startup, now) &&
                   KeptForever(db, res.records, VhostKey(s.hostname, s.port))
  {
    if phase != Preflight {
      var keys := ResetKeys(servers);
      ResetAllEffect(db, keys, sts, phase == Startup, now);
      forall s | s in servers ensures VhostKey(s.hostname, s.port) in keys {
        var i :| 0 <= i < |servers| && servers[i] == s;
        assert keys[i] == VhostKey(s.hostname, s.port);
      }
      assert keys[|servers|] == GlobalKey;
      var n := |keys| - 1;
      ResetEffect(ResetAll(db, keys[..n], sts[..n], phase == Startup, now).records, keys[n], phase == Startup, now,
                  APR_SUCCESS, APR_SUCCESS);
    }
  }

  /** The counters of a record before a logged transaction: a missing record counts from zero. */
  function Prior(db: Records, key: string): VhostData
    requires WellSized(db, key)
  {
    if key in db then db[key].data else ZeroData
  }

  /** The apr_status_t each call of a critical section returns. */
  datatype Statuses = Statuses(lock: int, open: int, fetch: int, fetchGlobal: int, store: int, storeGlobal: int, unlock: int)

  /**
   * bmx_vhost_log_transaction. Any failure is a 500: before the vhost
   * record is stored nothing changes; a failed global store leaves the
   * vhost record updated. A missing vhost record counts from zero; a
   * missing global record is a failure.
   */
  function Log(db: Records, vkey: string, r: Transaction, last: Transaction, st: Statuses): StoreResult
    requires WellSized(db, vkey) && WellSized(db, GlobalKey)
  {
    var d := Delta(r, last);
    if st.lock != APR_SUCCESS || st.open != APR_SUCCESS || st.fetch != APR_SUCCESS then
      StoreResult(HTTP_INTERNAL_SERVER_ERROR, db)
    else if st.fetchGlobal != APR_SUCCESS || GlobalKey !in db then StoreResult(HTTP_INTERNAL_SERVER_ERROR, db)
    else if st.store != APR_SUCCESS then StoreResult(HTTP_INTERNAL_SERVER_ERROR, db)
    else
      var db1 := db[vkey := Record(AddAll(Prior(db, vkey), d))];
      if st.storeGlobal != APR_SUCCESS then StoreResult(HTTP_INTERNAL_SERVER_ERROR, db1)
      else
        var db2 := db1[GlobalKey := Record(AddAll(db[GlobalKey].data, d))];
        StoreResult(if st.unlock == APR_SUCCESS then OK else HTTP_INTERNAL_SERVER_ERROR, db2)
  }

  /** The loop that follows r->next to the last request of an internal redirect chain. */
  method FindLast(chain: seq<Transaction>) returns (last: Transaction)
    requires |chain| >= 1
    ensures last == chain[|chain| - 1]
  {
    var i := 0;
    while i + 1 < |chain|
      invariant 0 <= i < |chain|
    {
      i := i + 1;
    }
    last := chain[i];
  }

  /** The cleanup labels of the critical sections: close the DBM if it was opened, then unlock. */
  method Release(dbm: Dbm, wasOpened: bool, unlock: int)
    requires dbm.locked && dbm.isOpen == wasOpened
    modifies dbm
    ensures !dbm.isOpen && dbm.locked == (unlock != APR_SUCCESS)
    ensures dbm.records == old(dbm.records)
  {
    if wasOpened {
      dbm.Close();
    }
    var _ := dbm.Unlock(unlock);
  }

  /**
   * The logging hook for the request chain `chain` (the request first, the
   * last response of its redirects last) on the vhost whose key is vkey.
   * Whatever fails, the DBM ends closed and the mutex released unless
   * releasing it is what failed.
   */
  method LogTransaction(dbm: Dbm, vkey: string, chain: seq<Transaction>, st: Statuses) returns (rv: int)
    requires |chain| >= 1
    requires !dbm.locked && !dbm.isOpen
    requires WellSized(dbm.records, vkey) && WellSized(dbm.records, GlobalKey)
    modifies dbm
    ensures StoreResult(rv, dbm.records) == Log(old(dbm.records), vkey, chain[0], chain[|chain| - 1], st)
    ensures !dbm.isOpen
    ensures dbm.locked <==> st.lock == APR_SUCCESS && st.unlock != APR_SUCCESS
  {
    var r := chain[0];
    var last := FindLast(chain);
    rv := dbm.Lock(st.lock);
    if rv != APR_SUCCESS {
      return HTTP_INTERNAL_SERVER_ERROR;
    }
    rv := dbm.Open(st.open);
    if rv != APR_SUCCESS {
      Release(dbm, false, st.unlock);
      return HTTP_INTERNAL_SERVER_ERROR;
    }
    var value;
    rv, value := dbm.Fetch(vkey, st.fetch);
    if rv != APR_SUCCESS {
      Release(dbm, true, st.unlock);
      return HTTP_INTERNAL_SERVER_ERROR;
    }
    var vhostData := if value.Some? then value.value.data else ZeroData;
    var globalValue;
    rv, globalValue := dbm.Fetch(GlobalKey, st.fetchGlobal);
    if rv != APR_SUCCESS || globalValue.None? {
      Release(dbm, true, st.unlock);
      return HTTP_INTERNAL_SERVER_ERROR;
    }
    var globalData := globalValue.value.data;

    vhostData := DataUpdate(vhostData, r, last);
    globalData := DataUpdate(globalData, r, last);

    rv := dbm.Store(vkey, Record(vhostData), st.store);
    if rv != APR_SUCCESS {
      Release(dbm, true, st.unlock);
      return HTTP_INTERNAL_SERVER_ERROR;
    }
    rv := dbm.Store(GlobalKey, Record(globalData), st.storeGlobal);
    if rv != APR_SUCCESS {
      Release(dbm, true, st.unlock);
      return HTTP_INTERNAL_SERVER_ERROR;
    }
    dbm.Close();
    rv := dbm.Unlock(st.unlock);
    if rv != APR_SUCCESS {
      return HTTP_INTERNAL_SERVER_ERROR;
    }
  }

  /** Every call succeeding and a global record present: exactly then the log is OK; otherwise 500. */
  lemma LogSucceeds(db: Records, vkey: string, r: Transaction, last: Transaction, st: Statuses)
    requires WellSized(db, vkey) && WellSized(db, GlobalKey)
    ensures var res := Log(db, vkey, r, last, st);
            && (res.rv == OK <==>
                  st == Statuses(APR_SUCCESS, APR_SUCCESS, APR_SUCCESS, APR_SUCCESS, APR_SUCCESS, APR_SUCCESS, APR_SUCCESS) &&
                  GlobalKey in db)
            && (res.rv != OK ==> res.rv == HTTP_INTERNAL_SERVER_ERROR)
            && ((st.lock != APR_SUCCESS || st.open != APR_SUCCESS || st.fetch != APR_SUCCESS ||
                 st.fetchGlobal != APR_SUCCESS || GlobalKey !in db || st.store != APR_SUCCESS) ==> res.records == db)
  {
  }

  /**
   * Both records receive the same transaction in all three windows: one
   * more request and response in each, the vhost's counted from zero when
   * it had no record, and no other key changes.
   */
  lemma LogCountsOnce(db: Records, vkey: string, r: Transaction, last: Transaction, st: Statuses)
    requires WellSized(db, vkey) && WellSized(db, GlobalKey)
    requires vkey != GlobalKey
    requires st.lock == APR_SUCCESS && st.open == APR_SUCCESS && st.fetch == APR_SUCCESS
    requires st.fetchGlobal == APR_SUCCESS && GlobalKey in db && st.store == APR_SUCCESS
    ensures var res := Log(db, vkey, r, last, st).records;
            && vkey in res && res[vkey] == Record(AddAll(Prior(db, vkey), Delta(r, last)))
            && res[vkey].data.forever.inRequests == Prior(db, vkey).forever.inRequests + 1
            && res[vkey].data.sinceRestart.outResponses == Prior(db, vkey).sinceRestart.outResponses + 1
            && (vkey !in db ==> res[vkey].data.forever.startTime == 0)
            && (st.storeGlobal == APR_SUCCESS ==>
                  res[GlobalKey] == Record(AddAll(db[GlobalKey].data, Delta(r, last))) &&
                  res[GlobalKey].data.sinceStart.inRequests == db[GlobalKey].data.sinceStart.inRequests + 1)
            && (st.storeGlobal != APR_SUCCESS ==> res[GlobalKey] == db[GlobalKey])
            && forall k :: k != vkey && k != GlobalKey ==> (k in res <==> k in db) && (k in db ==> res[k] == db[k])
  {
  }

  /** Every counter of every window of a is at most that of b. */
  predicate Grown(a: VhostData, b: VhostData) {
    Le(a.forever, b.forever) && Le(a.sinceStart, b.sinceStart) && Le(a.sinceRestart, b.sinceRestart)
  }

  /** Adding a delta to every window only grows them. */
  lemma AddAllGrows(v: VhostData, d: Timespan)
    ensures Grown(v, AddAll(v, d))
  {
  }

  /** Logging never removes a record and never decreases a counter. */
  lemma LogNeverDecreases(db: Records, vkey: string, r: Transaction, last: Transaction, st: Statuses)
    requires WellSized(db, vkey) && WellSized(db, GlobalKey)
    ensures var res := Log(db, vkey, r, last, st).records;
            forall k :: k in db ==> k in res && (db[k].Record? ==> res[k].Record? && Grown(db[k].data, res[k].data))
  {
    var d := Delta(r, last);
    AddAllGrows(Prior(db, vkey), d);
    if GlobalKey in db {
      AddAllGrows(db[GlobalKey].data, d);
    }
  }

  /** Every record of the store has nested windows. */
  predicate AllNested(db: Records) {
    forall k :: k in db && db[k].Record? ==> Nested(db[k].data)
  }

  /** Logging keeps every record's windows nested. */
  lemma LogKeepsNested(db: Records, vkey: string, r: Transaction, last: Transaction, st: Statuses)
    requires WellSized(db, vkey) && WellSized(db, GlobalKey)
    requires AllNested(db)
    ensures AllNested(Log(db, vkey, r, last, st).records)
  {
    var d := Delta(r, last);
    ZeroDataIsNested();
    AddAllKeepsNested(Prior(db, vkey), d);
    if GlobalKey in db {
      AddAllKeepsNested(db[GlobalKey].data, d);
    }
  }

  /** Adding two deltas to all windows in either order gives the same record. */
  lemma AddAllCommutes(v: VhostData, d1: Timespan, d2: Timespan)
    ensures AddAll(AddAll(v, d1), d2) == AddAll(AddAll(v, d2), d1)
  {
  }

  /**
   * Two processes logging one transaction each, one critical section after
   * the other: when both succeed, the order of the sections does not
   * change what the store holds.
   */
  lemma LogsCommute(db: Records, k1: string, r1: Transaction, l1: Transaction,
                    k2: string, r2: Transaction, l2: Transaction, st: Statuses)
    requires st == Statuses(APR_SUCCESS, APR_SUCCESS, APR_SUCCESS, APR_SUCCESS, APR_SUCCESS, APR_SUCCESS, APR_SUCCESS)
    requires k1 != GlobalKey && k2 != GlobalKey && GlobalKey in db
    requires WellSized(db, k1) && WellSized(db, k2) && WellSized(db, GlobalKey)
    ensures WellSized(Log(db, k1, r1, l1, st).records, k2) && WellSized(Log(db, k2, r2, l2, st).records, k1)
    ensures WellSized(Log(db, k1, r1, l1, st).records, GlobalKey) && WellSized(Log(db, k2, r2, l2, st).records, GlobalKey)
    ensures Log(Log(db, k1, r1, l1, st).records, k2, r2, l2, st).records ==
            Log(Log(db, k2, r2, l2, st).records, k1, r1, l1, st).records
  {
    var d1, d2 := Delta(r1, l1), Delta(r2, l2);
    assert Log(db, k1, r1, l1, st).records == Counted(db, k1, d1);
    assert Log(db, k2, r2, l2, st).records == Counted(db, k2, d2);
    assert Log(Counted(db, k1, d1), k2, r2, l2, st).records == Counted(Counted(db, k1, d1), k2, d2);
    assert Log(Counted(db, k2, d2), k1, r1, l1, st).records == Counted(Counted(db, k2, d2), k1, d1);
    CountsCommute(db, k1, d1, k2, d2);
  }

  /** The store after a critical section that succeeds: one timespan added to a vhost and to the global record. */
  function Counted(db: Records, k: string, d: Timespan): (db': Records)
    requires k != GlobalKey && GlobalKey in db
    requires WellSized(db, k) && WellSized(db, GlobalKey)
    ensures GlobalKey in db' && WellSized(db', GlobalKey)
    ensures forall k' :: WellSized(db, k') ==> WellSized(db', k')
  {
    db[k := Record(AddAll(Prior(db, k), d))][GlobalKey := Record(AddAll(db[GlobalKey].data, d))]
  }

  lemma CountsCommute(db: Records, k1: string, d1: Timespan, k2: string, d2: Timespan)
    requires k1 != GlobalKey && k2 != GlobalKey && GlobalKey in db
    requires WellSized(db, k1) && WellSized(db, k2) && WellSized(db, GlobalKey)
    ensures Counted(Counted(db, k1, d1), k2, d2) == Counted(Counted(db, k2, d2), k1, d1)
  {
    AddAllCommutes(db[GlobalKey].data, d1, d2);
    if k1 == k2 {
      AddAllCommutes(Prior(db, k1), d1, d2);
    } else {
      assert Prior(Counted(db, k1, d1), k2) == Prior(db, k2);
      assert Prior(Counted(db, k2, d2), k1) == Prior(db, k1);
    }
  }
}
