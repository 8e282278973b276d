/**
 * The per-vhost counters of mod_bmx_vhost.c: one timespan of request and
 * response counters, how one logged transaction adds to it, and the three
 * windows (forever, since-start, since-restart) kept for every vhost.
 */
module VhostCounters {
  import opened Wrappers
  import opened Bmx

  /** The parts of a request_rec a logged transaction reads. */
  datatype Transaction = Transaction(methodNumber: int, headerOnly: bool, status: int, readLength: nat, bytesSent: nat)

  /** The per-method counter pairs. */
  datatype MethodBucket = GET | HEAD | POST | PUT
  /** The per-status counter pairs. */
  datatype StatusBucket = S200 | S301 | S302 | S401 | S403 | S404 | S500

  function StatusCode(b: StatusBucket): int {
    match b
    case S200 => 200
    case S301 => 301
    case S302 => 302
    case S401 => 401
    case S403 => 403
    case S404 => 404
    case S500 => 500
  }

  /** The method pair a transaction counts under: a header-only GET is a HEAD. */
  function MethodOf(r: Transaction): (b: Option<MethodBucket>)
    ensures b.Some? <==> r.methodNumber in {M_GET, M_POST, M_PUT}
    ensures b == Some(HEAD) <==> r.methodNumber == M_GET && r.headerOnly
    ensures b == Some(GET) <==> r.methodNumber == M_GET && !r.headerOnly
    ensures b == Some(POST) <==> r.methodNumber == M_POST
    ensures b == Some(PUT) <==> r.methodNumber == M_PUT
  {
    if r.methodNumber == M_GET then Some(if r.headerOnly then HEAD else GET)
    else if r.methodNumber == M_POST then Some(POST)
    else if r.methodNumber == M_PUT then Some(PUT)
    else None
  }

  /** The status pair a response counts under, if its status has one. */
  function StatusOf(status: int): (b: Option<StatusBucket>)
    ensures b.Some? <==> status in {200, 301, 302, 401, 403, 404, 500}
    ensures b.Some? ==> StatusCode(b.value) == status
  {
    if status == 200 then Some(S200)
    else if status == 301 then Some(S301)
    else if status == 302 then Some(S302)
    else if status == 401 then Some(S401)
    else if status == 403 then Some(S403)
    else if status == 404 then Some(S404)
    else if status == 500 then Some(S500)
    else None
  }

  /** The bytes counted as sent: the request's own count, or the last response's when that is zero. */
  function Sent(r: Transaction, last: Transaction): nat {
    if r.bytesSent != 0 then r.bytesSent else last.bytesSent
  }

  /**
   * struct vhost_timespan. Counters are unbounded here; startTime is an
   * apr_time_t.
   */
  datatype Timespan = Timespan(
    inBytesGET: nat,
    inBytesHEAD: nat,
    inBytesPOST: nat,
    inBytesPUT: nat,
    inRequestsGET: nat,
    inRequestsHEAD: nat,
    inRequestsPOST: nat,
    inRequestsPUT: nat,
    outBytes200: nat,
    outBytes301: nat,
    outBytes302: nat,
    outBytes401: nat,
    outBytes403: nat,
    outBytes404: nat,
    outBytes500: nat,
    outResponses200: nat,
    outResponses301: nat,
    outResponses302: nat,
    outResponses401: nat,
    outResponses403: nat,
    outResponses404: nat,
    outResponses500: nat,
    inLowBytes: nat,
    outLowBytes: nat,
    inRequests: nat,
    outResponses: nat,
    startTime: int)

  function InBytes(ts: Timespan, b: MethodBucket): nat {
    match b
    case GET => ts.inBytesGET
    case HEAD => ts.inBytesHEAD
    case POST => ts.inBytesPOST
    case PUT => ts.inBytesPUT
  }

  function InRequestsOf(ts: Timespan, b: MethodBucket): nat {
    match b
    case GET => ts.inRequestsGET
    case HEAD => ts.inRequestsHEAD
    case POST => ts.inRequestsPOST
    case PUT => ts.inRequestsPUT
  }

  function OutBytes(ts: Timespan, b: StatusBucket): nat {
    match b
    case S200 => ts.outBytes200
    case S301 => ts.outBytes301
    case S302 => ts.outBytes302
    case S401 => ts.outBytes401
    case S403 => ts.outBytes403
    case S404 => ts.outBytes404
    case S500 => ts.outBytes500
  }

  function OutResponsesOf(ts: Timespan, b: StatusBucket): nat {
    match b
    case S200 => ts.outResponses200
    case S301 => ts.outResponses301
    case S302 => ts.outResponses302
    case S401 => ts.outResponses401
    case S403 => ts.outResponses403
    case S404 => ts.outResponses404
    case S500 => ts.outResponses500
  }

  /** A timespan with every counter zero, started at `now`. */
  function Fresh(now: int): (ts: Timespan)
    ensures ts.startTime == now
  {
    Timespan(0, 0, 0, 0, 0, 0, 0, 0, 0, 0, 0, 0, 0, 0, 0, 0, 0, 0, 0, 0, 0, 0, 0, 0, 0, 0, now)
  }

  function If(c: bool, x: nat): nat {
    if c then x else 0
  }

  /**
   * What one transaction adds to a timespan, defined by its method pair,
   * its status pair and the totals; it adds nothing to startTime.
   */
  function Delta(r: Transaction, last: Transaction): Timespan {
    var m := MethodOf(r);
    var s := StatusOf(r.status);
    var sent := Sent(r, last);
    Timespan(
      If(m == Some(GET), r.readLength),
      If(m == Some(HEAD), r.readLength),
      If(m == Some(POST), r.readLength),
      If(m == Some(PUT), r.readLength),
      If(m == Some(GET), 1),
      If(m == Some(HEAD), 1),
      If(m == Some(POST), 1),
      If(m == Some(PUT), 1),
      If(s == Some(S200), sent),
      If(s == Some(S301), sent),
      If(s == Some(S302), sent),
      If(s == Some(S401), sent),
      If(s == Some(S403), sent),
      If(s == Some(S404), sent),
      If(s == Some(S500), sent),
      If(s == Some(S200), 1),
      If(s == Some(S301), 1),
      If(s == Some(S302), 1),
      If(s == Some(S401), 1),
      If(s == Some(S403), 1),
      If(s == Some(S404), 1),
      If(s == Some(S500), 1),
      r.readLength,
      sent,
      1,
      1,
      0)
  }

  /** Counter-wise sum; startTime is the first timespan's. */
  function Add(ts: Timespan, d: Timespan): Timespan {
    Timespan(ts.inBytesGET + d.inBytesGET, ts.inBytesHEAD + d.inBytesHEAD, ts.inBytesPOST + d.inBytesPOST, ts.inBytesPUT + d.inBytesPUT, ts.inRequestsGET + d.inRequestsGET, ts.inRequestsHEAD + d.inRequestsHEAD, ts.inRequestsPOST + d.inRequestsPOST, ts.inRequestsPUT + d.inRequestsPUT, ts.outBytes200 + d.outBytes200, ts.outBytes301 + d.outBytes301, ts.outBytes302 + d.outBytes302, ts.outBytes401 + d.outBytes401, ts.outBytes403 + d.outBytes403, ts.outBytes404 + d.outBytes404, ts.outBytes500 + d.outBytes500, ts.outResponses200 + d.outResponses200, ts.outResponses301 + d.outResponses301, ts.outResponses302 + d.outResponses302, ts.outResponses401 + d.outResponses401, ts.outResponses403 + d.outResponses403, ts.outResponses404 + d.outResponses404, ts.outResponses500 + d.outResponses500, ts.inLowBytes + d.inLowBytes, ts.outLowBytes + d.outLowBytes, ts.inRequests + d.inRequests, ts.outResponses + d.outResponses, ts.startTime)
  }

  /** Every counter of a is at most the same counter of b. */
  predicate Le(a: Timespan, b: Timespan) {
    a.inBytesGET <= b.inBytesGET
    && a.inBytesHEAD <= b.inBytesHEAD
    && a.inBytesPOST <= b.inBytesPOST
    && a.inBytesPUT <= b.inBytesPUT
    && a.inRequestsGET <= b.inRequestsGET
    && a.inRequestsHEAD <= b.inRequestsHEAD
    && a.inRequestsPOST <= b.inRequestsPOST
    && a.inRequestsPUT <= b.inRequestsPUT
    && a.outBytes200 <= b.outBytes200
    && a.outBytes301 <= b.outBytes301
    && a.outBytes302 <= b.outBytes302
    && a.outBytes401 <= b.outBytes401
    && a.outBytes403 <= b.outBytes403
    && a.outBytes404 <= b.outBytes404
    && a.outBytes500 <= b.outBytes500
    && a.outResponses200 <= b.outResponses200
    && a.outResponses301 <= b.outResponses301
    && a.outResponses302 <= b.outResponses302
    && a.outResponses401 <= b.outResponses401
    && a.outResponses403 <= b.outResponses403
    && a.outResponses404 <= b.outResponses404
    && a.outResponses500 <= b.outResponses500
    && a.inLowBytes <= b.inLowBytes
    && a.outLowBytes <= b.outLowBytes
    && a.inRequests <= b.inRequests
    && a.outResponses <= b.outResponses
  }

  /** Each total is at least the sum of its per-method or per-status breakdown. */
  predicate TotalsCover(ts: Timespan) {
    && ts.inLowBytes >= ts.inBytesGET + ts.inBytesHEAD + ts.inBytesPOST + ts.inBytesPUT
    && ts.inRequests >= ts.inRequestsGET + ts.inRequestsHEAD + ts.inRequestsPOST + ts.inRequestsPUT
    && ts.outLowBytes >= ts.outBytes200 + ts.outBytes301 + ts.outBytes302 + ts.outBytes401
                          + ts.outBytes403 + ts.outBytes404 + ts.outBytes500
    && ts.outResponses >= ts.outResponses200 + ts.outResponses301 + ts.outResponses302 + ts.outResponses401
                           + ts.outResponses403 + ts.outResponses404 + ts.outResponses500
  }

  /** The part of Delta the method switch adds. */
  function MethodDelta(r: Transaction): Timespan {
    var m := MethodOf(r);
    Timespan(
      If(m == Some(GET), r.readLength),
      If(m == Some(HEAD), r.readLength),
      If(m == Some(POST), r.readLength),
      If(m == Some(PUT), r.readLength),
      If(m == Some(GET), 1),
      If(m == Some(HEAD), 1),
      If(m == Some(POST), 1),
      If(m == Some(PUT), 1),
      0,
      0,
      0,
      0,
      0,
      0,
      0,
      0,
      0,
      0,
      0,
      0,
      0,
      0,
      0,
      0,
      0,
      0,
      0)
  }

  /** The part of Delta the status switch adds. */
  function StatusDelta(r: Transaction, last: Transaction): Timespan {
    var s := StatusOf(r.status);
    Timespan(
      0,
      0,
      0,
      0,
      0,
      0,
      0,
      0,
      If(s == Some(S200), Sent(r, last)),
      If(s == Some(S301), Sent(r, last)),
      If(s == Some(S302), Sent(r, last)),
      If(s == Some(S401), Sent(r, last)),
      If(s == Some(S403), Sent(r, last)),
      If(s == Some(S404), Sent(r, last)),
      If(s == Some(S500), Sent(r, last)),
      If(s == Some(S200), 1),
      If(s == Some(S301), 1),
      If(s == Some(S302), 1),
      If(s == Some(S401), 1),
      If(s == Some(S403), 1),
      If(s == Some(S404), 1),
      If(s == Some(S500), 1),
      0,
      0,
      0,
      0,
      0)
  }

  /** The part of Delta the totals add. */
  function TotalsDelta(r: Transaction, last: Transaction): Timespan {
    Timespan(
      0,
      0,
      0,
      0,
      0,
      0,
      0,
      0,
      0,
      0,
      0,
      0,
      0,
      0,
      0,
      0,
      0,
      0,
      0,
      0,
      0,
      0,
      r.readLength,
      Sent(r, last),
      1,
      1,
      0)
  }

  lemma DeltaParts(ts: Timespan, r: Transaction, last: Transaction)
    ensures Add(Add(Add(ts, MethodDelta(r)), StatusDelta(r, last)), TotalsDelta(r, last)) == Add(ts, Delta(r, last))
  {
  }

  /** The method switch of vhost_timespan_update. */
  method CountMethod(ts0: Timespan, r: Transaction) returns (ts: Timespan)
    ensures ts == Add(ts0, MethodDelta(r))
  {
    ts := ts0;
    if r.methodNumber == M_GET {
      if r.headerOnly {
        ts := ts.(inBytesHEAD := ts.inBytesHEAD + r.readLength);
        ts := ts.(inRequestsHEAD := ts.inRequestsHEAD + 1);
      } else {
        ts := ts.(inBytesGET := ts.inBytesGET + r.readLength);
        ts := ts.(inRequestsGET := ts.inRequestsGET + 1);
      }
    } else if r.methodNumber == M_POST {
      ts := ts.(inBytesPOST := ts.inBytesPOST + r.readLength);
      ts := ts.(inRequestsPOST := ts.inRequestsPOST + 1);
    } else if r.methodNumber == M_PUT {
      ts := ts.(inBytesPUT := ts.inBytesPUT + r.readLength);
      ts := ts.(inRequestsPUT := ts.inRequestsPUT + 1);
    }
  }

  /** The status switch of vhost_timespan_update. */
  method CountStatus(ts0: Timespan, r: Transaction, last: Transaction) returns (ts: Timespan)
    ensures ts == Add(ts0, StatusDelta(r, last))
  {
    ts := ts0;
    if r.status == 200 {
      ts := ts.(outBytes200 := ts.outBytes200 + if r.bytesSent != 0 then r.bytesSent else last.bytesSent);
      ts := ts.(outResponses200 := ts.outResponses200 + 1);
    } else if r.status == 301 {
      ts := ts.(outBytes301 := ts.outBytes301 + if r.bytesSent != 0 then r.bytesSent else last.bytesSent);
      ts := ts.(outResponses301 := ts.outResponses301 + 1);
    } else if r.status == 302 {
      ts := ts.(outBytes302 := ts.outBytes302 + if r.bytesSent != 0 then r.bytesSent else last.bytesSent);
      ts := ts.(outResponses302 := ts.outResponses302 + 1);
    } else if r.status == 401 {
      ts := ts.(outBytes401 := ts.outBytes401 + if r.bytesSent != 0 then r.bytesSent else last.bytesSent);
      ts := ts.(outResponses401 := ts.outResponses401 + 1);
    } else if r.status == 403 {
      ts := ts.(outBytes403 := ts.outBytes403 + if r.bytesSent != 0 then r.bytesSent else last.bytesSent);
      ts := ts.(outResponses403 := ts.outResponses403 + 1);
    } else if r.status == 404 {
      ts := ts.(outBytes404 := ts.outBytes404 + if r.bytesSent != 0 then r.bytesSent else last.bytesSent);
      ts := ts.(outResponses404 := ts.outResponses404 + 1);
    } else if r.status == 500 {
      ts := ts.(outBytes500 := ts.outBytes500 + if r.bytesSent != 0 then r.bytesSent else last.bytesSent);
      ts := ts.(outResponses500 := ts.outResponses500 + 1);
    }
  }

  /**
   * vhost_timespan_update: the method switch, the status switch, then the
   * totals, each incrementing fields of the timespan.
   */
  method TimespanUpdate(ts0: Timespan, r: Transaction, last: Transaction) returns (ts: Timespan)
    ensures ts == Add(ts0, Delta(r, last))
  {
    ts := CountMethod(ts0, r);
    ts := CountStatus(ts, r, last);
    ts := ts.(inLowBytes := ts.inLowBytes + r.readLength);
    ts := ts.(outLowBytes := ts.outLowBytes + if r.bytesSent != 0 then r.bytesSent else last.bytesSent);
    ts := ts.(inRequests := ts.inRequests + 1);
    ts := ts.(outResponses := ts.outResponses + 1);
    assert ts == Add(Add(Add(ts0, MethodDelta(r)), StatusDelta(r, last)), TotalsDelta(r, last));
    DeltaParts(ts0, r, last);
  }

  /**
   * Counting one transaction, pair by pair: a method pair grows by the
   * read length and one request exactly when the transaction counts under
   * it, a status pair by the sent bytes and one response exactly when its
   * status is that pair's; the totals always grow, and startTime stays.
   */
  lemma UpdateByBucket(ts: Timespan, r: Transaction, last: Transaction)
    ensures var u := Add(ts, Delta(r, last));
            && (forall b :: InBytes(u, b) == InBytes(ts, b) + If(MethodOf(r) == Some(b), r.readLength))
            && (forall b :: InRequestsOf(u, b) == InRequestsOf(ts, b) + If(MethodOf(r) == Some(b), 1))
            && (forall b :: OutBytes(u, b) == OutBytes(ts, b) + If(StatusOf(r.status) == Some(b), Sent(r, last)))
            && (forall b :: OutResponsesOf(u, b) == OutResponsesOf(ts, b) + If(StatusOf(r.status) == Some(b), 1))
            && u.inLowBytes == ts.inLowBytes + r.readLength
            && u.outLowBytes == ts.outLowBytes + Sent(r, last)
            && u.inRequests == ts.inRequests + 1
            && u.outResponses == ts.outResponses + 1
            && u.startTime == ts.startTime
  {
    var u := Add(ts, Delta(r, last));
    forall b ensures InBytes(u, b) == InBytes(ts, b) + If(MethodOf(r) == Some(b), r.readLength)
                && InRequestsOf(u, b) == InRequestsOf(ts, b) + If(MethodOf(r) == Some(b), 1) {
      match b
      case GET =>
      case HEAD =>
      case POST =>
      case PUT =>
    }
    forall b ensures OutBytes(u, b) == OutBytes(ts, b) + If(StatusOf(r.status) == Some(b), Sent(r, last))
                && OutResponsesOf(u, b) == OutResponsesOf(ts, b) + If(StatusOf(r.status) == Some(b), 1) {
      match b
      case S200 =>
      case S301 =>
      case S302 =>
      case S401 =>
      case S403 =>
      case S404 =>
      case S500 =>
    }
  }

  /** No counter ever decreases. */
  lemma UpdateIsMonotone(ts: Timespan, r: Transaction, last: Transaction)
    ensures Le(ts, Add(ts, Delta(r, last)))
  {
  }

  /** Totals that cover their breakdowns keep covering them. */
  lemma UpdateKeepsTotalsCover(ts: Timespan, r: Transaction, last: Transaction)
    requires TotalsCover(ts)
    ensures TotalsCover(Add(ts, Delta(r, last)))
  {
    var d := Delta(r, last);
    assert d.inBytesGET + d.inBytesHEAD + d.inBytesPOST + d.inBytesPUT <= d.inLowBytes;
    assert d.inRequestsGET + d.inRequestsHEAD + d.inRequestsPOST + d.inRequestsPUT <= d.inRequests;
  }

  /** The order in which two transactions are logged does not matter. */
  lemma UpdatesCommute(ts: Timespan, r1: Transaction, l1: Transaction, r2: Transaction, l2: Transaction)
    ensures Add(Add(ts, Delta(r1, l1)), Delta(r2, l2)) == Add(Add(ts, Delta(r2, l2)), Delta(r1, l1))
  {
  }

  /** Adding d to ts n times. */
  function Repeat(ts: Timespan, d: Timespan, n: nat): Timespan {
    if n == 0 then ts else Add(Repeat(ts, d, n - 1), d)
  }

  /** A counter multiplied by n. */
  function Times(a: nat, n: nat): nat {
    a * n
  }

  lemma TimesStep(a: nat, n: nat)
    requires n > 0
    ensures Times(a, n - 1) + a == Times(a, n)
  {
  }

  /** Every counter of d multiplied by n. */
  function Scale(d: Timespan, n: nat): Timespan {
    Timespan(
      Times(d.inBytesGET, n), Times(d.inBytesHEAD, n), Times(d.inBytesPOST, n), Times(d.inBytesPUT, n),
      Times(d.inRequestsGET, n), Times(d.inRequestsHEAD, n), Times(d.inRequestsPOST, n),
      Times(d.inRequestsPUT, n), Times(d.outBytes200, n), Times(d.outBytes301, n), Times(d.outBytes302, n),
      Times(d.outBytes401, n), Times(d.outBytes403, n), Times(d.outBytes404, n), Times(d.outBytes500, n),
      Times(d.outResponses200, n), Times(d.outResponses301, n), Times(d.outResponses302, n),
      Times(d.outResponses401, n), Times(d.outResponses403, n), Times(d.outResponses404, n),
      Times(d.outResponses500, n), Times(d.inLowBytes, n), Times(d.outLowBytes, n), Times(d.inRequests, n),
      Times(d.outResponses, n), 0)
  }

  /** Adding counters is associative. */
  lemma AddAssociates(a: Timespan, b: Timespan, c: Timespan)
    ensures Add(Add(a, b), c) == Add(a, Add(b, c))
  {
  }

  lemma ScaleSucc(d: Timespan, n: nat)
    requires n > 0
    ensures Add(Scale(d, n - 1), d) == Scale(d, n)
  {
      TimesStep(d.inBytesGET, n);
      TimesStep(d.inBytesHEAD, n);
      TimesStep(d.inBytesPOST, n);
      TimesStep(d.inBytesPUT, n);
      TimesStep(d.inRequestsGET, n);
      TimesStep(d.inRequestsHEAD, n);
      TimesStep(d.inRequestsPOST, n);
      TimesStep(d.inRequestsPUT, n);
      TimesStep(d.outBytes200, n);
      TimesStep(d.outBytes301, n);
      TimesStep(d.outBytes302, n);
      TimesStep(d.outBytes401, n);
      TimesStep(d.outBytes403, n);
      TimesStep(d.outBytes404, n);
      TimesStep(d.outBytes500, n);
      TimesStep(d.outResponses200, n);
      TimesStep(d.outResponses301, n);
      TimesStep(d.outResponses302, n);
      TimesStep(d.outResponses401, n);
      TimesStep(d.outResponses403, n);
      TimesStep(d.outResponses404, n);
      TimesStep(d.outResponses500, n);
      TimesStep(d.inLowBytes, n);
      TimesStep(d.outLowBytes, n);
      TimesStep(d.inRequests, n);
      TimesStep(d.outResponses, n);
  }

  /** n transactions with the same delta, logged one after another, add n times that delta. */
  lemma {:induction false} RepeatIsScale(ts: Timespan, d: Timespan, n: nat)
    ensures Repeat(ts, d, n) == Add(ts, Scale(d, n))
  {
    if n > 0 {
      var s := Scale(d, n - 1);
      RepeatIsScale(ts, d, n - 1);
      assert Repeat(ts, d, n - 1) == Add(ts, s);
      AddAssociates(ts, s, d);
      ScaleSucc(d, n);
    }
  }

  /** struct vhost_data: the three windows kept for a vhost. */
  datatype VhostData = VhostData(forever: Timespan, sinceStart: Timespan, sinceRestart: Timespan)

  /** The record a missing vhost record is zero-filled to while logging: every field, startTime included, zero. */
  const ZeroData := VhostData(Fresh(0), Fresh(0), Fresh(0))

  /** The same delta added to every window. */
  function AddAll(v: VhostData, d: Timespan): VhostData {
    VhostData(Add(v.forever, d), Add(v.sinceStart, d), Add(v.sinceRestart, d))
  }

  /** vhost_data_update: the one transaction counted in all three windows. */
  method DataUpdate(v0: VhostData, r: Transaction, last: Transaction) returns (v: VhostData)
    ensures v == AddAll(v0, Delta(r, last))
  {
    var forever := TimespanUpdate(v0.forever, r, last);
    var sinceStart := TimespanUpdate(v0.sinceStart, r, last);
    var sinceRestart := TimespanUpdate(v0.sinceRestart, r, last);
    v := VhostData(forever, sinceStart, sinceRestart);
  }

  /**
   * The record vhost_data_reset stores: a missing or wrongly sized one
   * (None) becomes three fresh windows; otherwise forever is kept,
   * since-start is restarted only at startup, and since-restart always.
   */
  function ResetData(prev: Option<VhostData>, startup: bool, now: int): VhostData {
    match prev
    case None => VhostData(Fresh(now), Fresh(now), Fresh(now))
    case Some(v) => VhostData(v.forever, if startup then Fresh(now) else v.sinceStart, Fresh(now))
  }

  /** The shorter windows never count more than the longer ones. */
  predicate Nested(v: VhostData) {
    Le(v.sinceRestart, v.sinceStart) && Le(v.sinceStart, v.forever)
  }

  lemma ZeroDataIsNested()
    ensures Nested(ZeroData)
  {
  }

  /** Logging keeps the windows nested. */
  lemma AddAllKeepsNested(v: VhostData, d: Timespan)
    requires Nested(v)
    ensures Nested(AddAll(v, d))
  {
  }

  /** A reset keeps the windows nested, and yields nested windows from nothing. */
  lemma ResetKeepsNested(prev: Option<VhostData>, startup: bool, now: int)
    requires prev.Some? ==> Nested(prev.value)
    ensures Nested(ResetData(prev, startup, now))
    ensures ResetData(prev, startup, now).sinceRestart == Fresh(now)
    ensures prev.Some? ==> ResetData(prev, startup, now).forever == prev.value.forever
  {
  }
}
