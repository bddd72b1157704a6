/**
 * The background-sync part of the service worker (`public/sw.js`): the
 * route that sends report POSTs through the background-sync plugin, the
 * `sync` event's tag check, the plugin's `onSync` replay loop over its
 * request queue, and the report id it reads from a request body.
 *
 * `onSync` as written puts an entry back at the front twice when the server
 * answers with a non-2xx status: once before throwing, and once more in the
 * `catch` that the throw lands in. `OnSync` models that loop as written and
 * `OnSyncCorrected` the loop with a single re-insert.
 */
module ServiceWorker {
  import opened Common
  import opened JsText
  import opened JsValues

  const SyncQueueName: string := "aegis-sync-queue"
  const SyncPath: string := "/api/sync-reports"
  /** How long the plugin keeps a queued request, in minutes (48 hours). */
  const MaxRetentionMinutes: int := 48 * 60

  /** The POST route predicate: exactly the sync endpoint, exactly POST. */
  predicate IsSyncRoute(pathname: string, httpMethod: string) {
    pathname == SyncPath && httpMethod == "POST"
  }

  /** A `sync` event replays the queue only for the queue's own tag. */
  predicate TriggersReplay(tag: string) {
    tag == SyncQueueName
  }

  /** A queued request; its body is what `request.clone().json()` gives. */
  datatype ReplayEntry = ReplayEntry(url: string, httpMethod: string, body: Parsed)

  /** What `fetch` gives for a replayed request. */
  datatype SwFetch = SwResponse(status: int) | SwThrew(thrown: Thrown)

  /** A message posted to every client window. */
  datatype Notice = SyncSuccess(reportId: JsValue) | SyncComplete(successCount: nat, failCount: nat)

  predicate Delivered(f: SwFetch) {
    f.SwResponse? && 200 <= f.status <= 299
  }

  /**
   * `body.localId || 'unknown'`, and 'unknown' when the body does not parse
   * or is `null`/`undefined` (reading `localId` then throws). The result is
   * always truthy.
   */
  function GetReportIdFromRequest(body: Parsed): (id: JsValue)
    ensures Truthy(id)
    ensures body.Malformed? ==> id == Str("unknown")
    ensures body.Parsed? && body.v.Obj? && "localId" in body.v.fields && Truthy(body.v.fields["localId"]) ==>
              id == body.v.fields["localId"]
    ensures body.Parsed? && body.v.Obj? && ("localId" !in body.v.fields || !Truthy(body.v.fields["localId"])) ==>
              id == Str("unknown")
    ensures body.Parsed? && (body.v == Null || body.v == Undefined) ==> id == Str("unknown")
  {
    match body
    case Malformed => Str("unknown")
    case Parsed(v) =>
      match Get(v, "localId")
      case Throws(_) => Str("unknown")
      case Value(x) => Or(x, Str("unknown"))
  }

  /** The index of the first entry that is not delivered, or the length when all are. */
  function FirstFailure(q: seq<ReplayEntry>, fetch: ReplayEntry -> SwFetch): (k: nat)
    ensures k <= |q|
    ensures forall i :: 0 <= i < k ==> Delivered(fetch(q[i]))
    ensures k < |q| ==> !Delivered(fetch(q[k]))
  {
    if q == [] || !Delivered(fetch(q[0])) then 0 else 1 + FirstFailure(q[1..], fetch)
  }

  /** One SYNC_SUCCESS per delivered entry, in queue order. */
  function SuccessNotices(q: seq<ReplayEntry>): (ns: seq<Notice>)
    ensures |ns| == |q|
    ensures forall i :: 0 <= i < |q| ==> ns[i] == SyncSuccess(GetReportIdFromRequest(q[i].body))
  {
    if q == [] then [] else SuccessNotices(q[..|q| - 1]) + [SyncSuccess(GetReportIdFromRequest(q[|q| - 1].body))]
  }

  /** The error the loop rethrows for a failing entry: the fetch's own, or `Error("HTTP <status>")`. */
  function FailureError(f: SwFetch): Thrown {
    match f
    case SwResponse(status) => ErrorObject(OtherError, "HTTP " + IntToString(status))
    case SwThrew(e) => e
  }

  /** Everything one `onSync` pass leaves behind. */
  datatype PassResult = PassResult(remaining: seq<ReplayEntry>, successCount: nat, failCount: nat, posted: seq<Notice>, thrown: Option<Thrown>)

  /**
   * A pass as written: the entries before the first failure are delivered
   * and notified; at a failure the pass aborts with the entry back at the
   * front, twice and with two failures counted when the server answered,
   * once when `fetch` threw; a pass without failure empties the queue and
   * posts SYNC_COMPLETE.
   */
  function PassAsWritten(q: seq<ReplayEntry>, fetch: ReplayEntry -> SwFetch): PassResult {
    var k := FirstFailure(q, fetch);
    if k == |q| then
      PassResult([], k, 0, SuccessNotices(q) + [SyncComplete(k, 0)], None)
    else if fetch(q[k]).SwResponse? then
      PassResult([q[k], q[k]] + q[k + 1..], k, 2, SuccessNotices(q[..k]), Some(FailureError(fetch(q[k]))))
    else
      PassResult([q[k]] + q[k + 1..], k, 1, SuccessNotices(q[..k]), Some(FailureError(fetch(q[k]))))
  }

  /** A pass with one re-insert per failure: the failing entry and the rest stay, in order, once each. */
  function PassCorrected(q: seq<ReplayEntry>, fetch: ReplayEntry -> SwFetch): PassResult {
    var k := FirstFailure(q, fetch);
    if k == |q| then
      PassResult([], k, 0, SuccessNotices(q) + [SyncComplete(k, 0)], None)
    else
      PassResult(q[k..], k, 1, SuccessNotices(q[..k]), Some(FailureError(fetch(q[k]))))
  }

  /** The plugin's request queue, drained from the front. */
  class ReplayQueue {
    var requests: seq<ReplayEntry>

    constructor (rs: seq<ReplayEntry>)
      ensures requests == rs
    {
      requests := rs;
    }

    /** `shiftRequest`: the front entry, removed; nothing when empty. */
    method ShiftRequest() returns (e: Option<ReplayEntry>)
      modifies this
      ensures old(requests) == [] ==> e == None && requests == []
      ensures old(requests) != [] ==> e == Some(old(requests)[0]) && requests == old(requests)[1..]
    {
      if requests == [] {
        return None;
      }
      e := Some(requests[0]);
      requests := requests[1..];
    }

    /** `unshiftRequest`: puts an entry back at the front. */
    method UnshiftRequest(e: ReplayEntry)
      modifies this
      ensures requests == [e] + old(requests)
    {
      requests := [e] + requests;
    }
  }

  /** The `onSync` callback as written. */
  method OnSync(queue: ReplayQueue, fetch: ReplayEntry -> SwFetch)
    returns (successCount: nat, failCount: nat, posted: seq<Notice>, thrown: Option<Thrown>)
    modifies queue
    ensures PassResult(queue.requests, successCount, failCount, posted, thrown) == PassAsWritten(old(queue.requests), fetch)
  {
    ghost var q0 := queue.requests;
    ghost var k := FirstFailure(q0, fetch);
    successCount := 0;
    failCount := 0;
    posted := [];
    thrown := None;
    while true
      invariant successCount <= k && queue.requests == q0[successCount..]
      invariant posted == SuccessNotices(q0[..successCount]) && failCount == 0 && thrown == None
      decreases |queue.requests|
    {
      var entry := queue.ShiftRequest();
      if entry.None? {
        break;
      }
      var e := entry.value;
      var response := fetch(e);
      if Delivered(response) {
        successCount := successCount + 1;
        assert q0[..successCount] == q0[..successCount - 1] + [e];
        posted := posted + [SyncSuccess(GetReportIdFromRequest(e.body))];
      } else {
        assert successCount == k && e == q0[k] && queue.requests == q0[k + 1..];
        if response.SwResponse? {
          failCount := failCount + 1;
          queue.UnshiftRequest(e);
        }
        thrown := Some(FailureError(response));
        failCount := failCount + 1;
        queue.UnshiftRequest(e);
        assert response.SwResponse? ==> queue.requests == [q0[k], q0[k]] + q0[k + 1..];
        return;
      }
    }
    assert q0[..successCount] == q0;
    posted := posted + [SyncComplete(successCount, failCount)];
  }

  /** The `onSync` callback with the entry put back once per failure. */
  method OnSyncCorrected(queue: ReplayQueue, fetch: ReplayEntry -> SwFetch)
    returns (successCount: nat, failCount: nat, posted: seq<Notice>, thrown: Option<Thrown>)
    modifies queue
    ensures PassResult(queue.requests, successCount, failCount, posted, thrown) == PassCorrected(old(queue.requests), fetch)
  {
    ghost var q0 := queue.requests;
    ghost var k := FirstFailure(q0, fetch);
    successCount := 0;
    failCount := 0;
    posted := [];
    thrown := None;
    while true
      invariant successCount <= k && queue.requests == q0[successCount..]
      invariant posted == SuccessNotices(q0[..successCount]) && failCount == 0 && thrown == None
      decreases |queue.requests|
    {
      var entry := queue.ShiftRequest();
      if entry.None? {
        break;
      }
      var e := entry.value;
      var response := fetch(e);
      if Delivered(response) {
        successCount := successCount + 1;
        assert q0[..successCount] == q0[..successCount - 1] + [e];
        posted := posted + [SyncSuccess(GetReportIdFromRequest(e.body))];
      } else {
        assert successCount == k && e == q0[k] && queue.requests == q0[k + 1..];
        thrown := Some(FailureError(response));
        failCount := failCount + 1;
        queue.UnshiftRequest(e);
        assert queue.requests == q0[k..];
        return;
      }
    }
    assert q0[..successCount] == q0;
    posted := posted + [SyncComplete(successCount, failCount)];
  }

  /**
   * As written, a non-2xx answer leaves the failing entry twice at the front:
   * the queue ends one entry longer than the undelivered part, and two
   * failures are counted for one request.
   */
  lemma AsWrittenDuplicatesOnHttpError(q: seq<ReplayEntry>, fetch: ReplayEntry -> SwFetch)
    requires FirstFailure(q, fetch) < |q| && fetch(q[FirstFailure(q, fetch)]).SwResponse?
    ensures var k := FirstFailure(q, fetch);
            var r := PassAsWritten(q, fetch);
            && |r.remaining| == |q| - k + 1
            && r.remaining[0] == r.remaining[1] == q[k]
            && r.failCount == 2
  {
  }

  /** A single queued report answered with 500 comes back from one pass queued twice. */
  lemma DuplicateExample(e: ReplayEntry)
    ensures PassAsWritten([e], _ => SwResponse(500)).remaining == [e, e]
  {
    var fetch: ReplayEntry -> SwFetch := _ => SwResponse(500);
    assert FirstFailure([e], fetch) == 0;
  }

  /**
   * With one re-insert, every entry of the queue is either delivered, and
   * announced by a SYNC_SUCCESS in queue order, or still queued exactly once,
   * in its original order; one failure is counted per failing pass.
   */
  lemma CorrectedKeepsEachUndeliveredOnce(q: seq<ReplayEntry>, fetch: ReplayEntry -> SwFetch)
    ensures var r := PassCorrected(q, fetch);
            && q == q[..r.successCount] + r.remaining
            && (forall i :: 0 <= i < r.successCount ==> Delivered(fetch(q[i])))
            && (r.remaining != [] ==> !Delivered(fetch(r.remaining[0])))
            && r.posted[..r.successCount] == SuccessNotices(q[..r.successCount])
            && r.failCount <= 1
  {
    var k := FirstFailure(q, fetch);
    assert q == q[..k] + q[k..];
  }

  /**
   * In both loops SYNC_COMPLETE is posted exactly when the pass empties the
   * queue, and then it reports no failures and as many successes as there
   * were entries.
   */
  lemma CompleteOnlyWhenDrained(q: seq<ReplayEntry>, fetch: ReplayEntry -> SwFetch)
    ensures var r := PassAsWritten(q, fetch);
            (|r.posted| > 0 && r.posted[|r.posted| - 1].SyncComplete?) <==> r.remaining == []
    ensures var r := PassCorrected(q, fetch);
            (|r.posted| > 0 && r.posted[|r.posted| - 1].SyncComplete?) <==> r.remaining == []
    ensures var r := PassAsWritten(q, fetch);
            r.remaining == [] ==> r.thrown == None && r.posted[|r.posted| - 1] == SyncComplete(|q|, 0)
    ensures var r := PassCorrected(q, fetch);
            r.remaining == [] ==> r.thrown == None && r.posted[|r.posted| - 1] == SyncComplete(|q|, 0)
  {
    var k := FirstFailure(q, fetch);
    if k < |q| {
      assert |SuccessNotices(q[..k])| == k;
      if k > 0 {
        assert SuccessNotices(q[..k])[k - 1].SyncSuccess?;
      }
    }
  }
}
