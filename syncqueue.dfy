/**
 * The durable request queue (`lib/sync-queue.ts`): a table of queued HTTP
 * requests keyed by id, listed oldest first, and `processQueue`, which
 * replays every entry of one snapshot once, removing the delivered ones and
 * recording retry metadata on the others. The responses are an input
 * (`fetch`), one per queued request.
 */
module SyncQueue {
  import opened Common
  import opened JsText
  import opened JsValues
  import Db

  datatype QueuedRequest = QueuedRequest(
    id: string,
    url: string,
    httpMethod: string,
    headers: map<string, string>,
    body: Option<string>,
    timestamp: int,
    retryCount: int,
    lastError: Option<string>,
    reportLocalId: string)

  /** The `fetch` options a caller hands to `addToQueue`; an absent field is `None`. */
  datatype RequestInit = RequestInit(httpMethod: Option<string>, headers: Option<map<string, string>>, body: Option<string>)

  /** The retry metadata `updateQueueItem` writes; an absent field is left as it is. */
  datatype QueuePatch = QueuePatch(retryCount: Option<int>, lastError: Option<string>)

  /** What replaying one request gives: an HTTP response, or a thrown error. */
  datatype FetchResult = Response(status: int) | FetchThrew(error: Thrown)

  /** `response.ok`. */
  predicate IsOk(status: int) {
    200 <= status <= 299
  }

  predicate Delivers(f: FetchResult) {
    f.Response? && IsOk(f.status)
  }

  /** The `lastError` a failed replay records: "HTTP <status>" or the error's message. */
  function ErrorText(f: FetchResult): string {
    match f
    case Response(status) => "HTTP " + IntToString(status)
    case FetchThrew(e) => MessageOf(e)
  }

  /** A request after a failed replay: one more retry, the cause recorded, nothing else changed. */
  function Retried(q: QueuedRequest, f: FetchResult): QueuedRequest {
    q.(retryCount := q.retryCount + 1, lastError := Some(ErrorText(f)))
  }

  /** The entry `addToQueue` stores for `init`: method "GET" and no headers unless given. */
  function NewEntry(id: string, url: string, init: RequestInit, reportLocalId: string, now: int): (q: QueuedRequest)
    ensures q.id == id && q.url == url && q.reportLocalId == reportLocalId && q.timestamp == now
    ensures q.retryCount == 0 && q.lastError == None && q.body == init.body
    ensures q.httpMethod == (if init.httpMethod.Some? && init.httpMethod.value != "" then init.httpMethod.value else "GET")
    ensures q.headers == (if init.headers.Some? then init.headers.value else map[])
  {
    var verb := if init.httpMethod.Some? && init.httpMethod.value != "" then init.httpMethod.value else "GET";
    QueuedRequest(id, url, verb, init.headers.GetOr(map[]), init.body, now, 0, None, reportLocalId)
  }

  /** An entry after `updateQueueItem`: the fields the patch carries are written, the others kept. */
  function Applied(q: QueuedRequest, patch: QueuePatch): (r: QueuedRequest)
    ensures r.retryCount == (if patch.retryCount.Some? then patch.retryCount.value else q.retryCount)
    ensures r.lastError == (if patch.lastError.Some? then patch.lastError else q.lastError)
    ensures r.(retryCount := q.retryCount, lastError := q.lastError) == q
  {
    q.(retryCount := patch.retryCount.GetOr(q.retryCount),
       lastError := if patch.lastError.Some? then patch.lastError else q.lastError)
  }

  /** The table after replaying every entry once: delivered entries gone, the others retried. */
  function Replayed(m: map<string, QueuedRequest>, fetch: QueuedRequest -> FetchResult): map<string, QueuedRequest> {
    map id | id in m && !Delivers(fetch(m[id])) :: Retried(m[id], fetch(m[id]))
  }

  function DeliveredIds(m: map<string, QueuedRequest>, fetch: QueuedRequest -> FetchResult): set<string> {
    set id | id in m && Delivers(fetch(m[id]))
  }

  /**
   * After a replay the table holds exactly the entries that were not
   * delivered, so no entry disappears without a success, and the number
   * delivered plus the number left is the number there was.
   */
  lemma ReplayAccounting(m: map<string, QueuedRequest>, fetch: QueuedRequest -> FetchResult)
    ensures Replayed(m, fetch).Keys == m.Keys - DeliveredIds(m, fetch)
    ensures DeliveredIds(m, fetch) <= m.Keys
    ensures |Replayed(m, fetch)| + |DeliveredIds(m, fetch)| == |m|
    ensures 0 <= |DeliveredIds(m, fetch)| <= |m|
  {
    var r, d := Replayed(m, fetch), DeliveredIds(m, fetch);
    assert r.Keys == m.Keys - d;
    SplitSize(m.Keys, d);
  }

  lemma SplitSize<T>(a: set<T>, d: set<T>)
    requires d <= a
    ensures |a - d| + |d| == |a|
  {
    assert a == (a - d) + d;
  }

  /** Removing a present key shrinks a map by one; overwriting one keeps its size. */
  lemma MapSizes<K, V>(t: map<K, V>, k: K, v: V)
    requires k in t
    ensures |t - {k}| + 1 == |t|
    ensures |t[k := v]| == |t|
  {
    assert t.Keys == (t - {k}).Keys + {k};
    assert t[k := v].Keys == t.Keys;
  }

  predicate SortedByTimestamp(rs: seq<QueuedRequest>) {
    forall i, j :: 0 <= i < j < |rs| ==> rs[i].timestamp <= rs[j].timestamp
  }

  /** No id is listed twice. */
  predicate DistinctIds(rs: seq<QueuedRequest>) {
    forall i, j :: 0 <= i < j < |rs| ==> rs[i].id != rs[j].id
  }

  /** The ids of the first `n` listed requests. */
  function IdsBefore(rs: seq<QueuedRequest>, n: nat): set<string>
    requires n <= |rs|
  {
    set j | 0 <= j < n :: rs[j].id
  }

  /** An id in a non-empty `ks` whose entry is not later than any other in `ks`. */
  ghost function OldestId(m: map<string, QueuedRequest>, ks: set<string>): (k: string)
    requires ks != {} && ks <= m.Keys
    ensures k in ks && forall k' :: k' in ks ==> m[k].timestamp <= m[k'].timestamp
    decreases ks
  {
    var k :| k in ks;
    if ks == {k} then k
    else
      var o := OldestId(m, ks - {k});
      if m[k].timestamp < m[o].timestamp then k else o
  }

  /** The patch a failed replay of `q` writes: one more than its retry count, and the cause. */
  function RetryPatch(q: QueuedRequest, f: FetchResult): QueuePatch {
    QueuePatch(Some(q.retryCount + 1), Some(ErrorText(f)))
  }

  /**
   * The table after settling one replayed request: its entry removed when
   * delivered, otherwise the retry patch applied to the stored entry (a
   * missing entry is left missing).
   */
  function Settled(t: map<string, QueuedRequest>, q: QueuedRequest, fetch: QueuedRequest -> FetchResult): map<string, QueuedRequest> {
    if Delivers(fetch(q)) then t - {q.id}
    else if q.id in t then t[q.id := Applied(t[q.id], RetryPatch(q, fetch(q)))]
    else t
  }

  /** The table after settling the first `n` listed requests in order. */
  function SettledPrefix(m: map<string, QueuedRequest>, rs: seq<QueuedRequest>, n: nat, fetch: QueuedRequest -> FetchResult): map<string, QueuedRequest>
    requires n <= |rs|
  {
    if n == 0 then m else Settled(SettledPrefix(m, rs, n - 1, fetch), rs[n - 1], fetch)
  }

  /** How many of the first `n` listed requests were delivered. */
  function DeliveredCount(rs: seq<QueuedRequest>, n: nat, fetch: QueuedRequest -> FetchResult): nat
    requires n <= |rs|
  {
    if n == 0 then 0 else DeliveredCount(rs, n - 1, fetch) + (if Delivers(fetch(rs[n - 1])) then 1 else 0)
  }

  /**
   * Settling the requests of a listing one by one, each id once, replays
   * exactly the listed ids, and every delivery shrinks the table by one.
   */
  lemma {:induction false} SettledPrefixReplays(m: map<string, QueuedRequest>, rs: seq<QueuedRequest>, n: nat, fetch: QueuedRequest -> FetchResult)
    requires n <= |rs| && DistinctIds(rs)
    requires forall i :: 0 <= i < |rs| ==> rs[i].id in m && m[rs[i].id] == rs[i]
    ensures SettledPrefix(m, rs, n, fetch) == ReplayedOn(m, IdsBefore(rs, n), fetch)
    ensures |SettledPrefix(m, rs, n, fetch)| + DeliveredCount(rs, n, fetch) == |m|
  {
    if n == 0 {
      assert IdsBefore(rs, 0) == {};
      assert ReplayedOn(m, {}, fetch) == m;
    } else {
      SettledPrefixReplays(m, rs, n - 1, fetch);
      var q := rs[n - 1];
      var before := SettledPrefix(m, rs, n - 1, fetch);
      NotListedBefore(rs, n - 1);
      IdsBeforeNext(rs, n - 1);
      ReplayStep(m, IdsBefore(rs, n - 1), q.id, fetch);
      assert Applied(q, RetryPatch(q, fetch(q))) == Retried(q, fetch(q));
      MapSizes(before, q.id, Retried(q, fetch(q)));
    }
  }

  /** Settling a whole listing of the table is the replay of the table, and counts its deliveries. */
  lemma SettledListingIsReplay(m: map<string, QueuedRequest>, rs: seq<QueuedRequest>, fetch: QueuedRequest -> FetchResult)
    requires DistinctIds(rs) && IdsBefore(rs, |rs|) == m.Keys
    requires forall i :: 0 <= i < |rs| ==> rs[i].id in m && m[rs[i].id] == rs[i]
    ensures SettledPrefix(m, rs, |rs|, fetch) == Replayed(m, fetch)
    ensures DeliveredCount(rs, |rs|, fetch) == |DeliveredIds(m, fetch)|
  {
    SettledPrefixReplays(m, rs, |rs|, fetch);
    ReplayComplete(m, fetch);
    ReplayAccounting(m, fetch);
  }

  /** Once every entry has been replayed, the partial replay is the whole replay. */
  lemma ReplayComplete(m: map<string, QueuedRequest>, fetch: QueuedRequest -> FetchResult)
    ensures ReplayedOn(m, m.Keys, fetch) == Replayed(m, fetch)
    ensures DeliveredIds(m, fetch) * m.Keys == DeliveredIds(m, fetch)
  {
  }

  /** In a listing without repeated ids, the id at `n` is not among those before it. */
  lemma NotListedBefore(rs: seq<QueuedRequest>, n: nat)
    requires DistinctIds(rs) && n < |rs|
    ensures rs[n].id !in IdsBefore(rs, n)
  {
  }

  /**
   * `rs` lists, oldest first, the entries of `m` whose ids are not in
   * `rest`, each once, and none of them is later than an entry still in `rest`.
   */
  predicate ListedSoFar(m: map<string, QueuedRequest>, rs: seq<QueuedRequest>, rest: set<string>) {
    && rest <= m.Keys
    && rest == m.Keys - IdsBefore(rs, |rs|)
    && SortedByTimestamp(rs)
    && DistinctIds(rs)
    && (forall i :: 0 <= i < |rs| ==> rs[i].id in m && m[rs[i].id] == rs[i])
    && (forall i, k :: 0 <= i < |rs| && k in rest ==> rs[i].timestamp <= m[k].timestamp)
  }

  /** Appending the oldest remaining entry keeps the listing in order and complete so far. */
  lemma AppendOldest(m: map<string, QueuedRequest>, rs: seq<QueuedRequest>, rest: set<string>, id: string)
    requires ListedSoFar(m, rs, rest)
    requires id in rest && m[id].id == id
    requires forall k :: k in rest ==> m[id].timestamp <= m[k].timestamp
    ensures ListedSoFar(m, rs + [m[id]], rest - {id})
  {
    var rs' := rs + [m[id]];
    IdsBeforeNext(rs', |rs|);
    assert IdsBefore(rs', |rs|) == IdsBefore(rs, |rs|) by {
      assert forall j :: 0 <= j < |rs| ==> rs'[j] == rs[j];
    }
    assert id !in IdsBefore(rs, |rs|);
    assert rest - {id} == m.Keys - IdsBefore(rs', |rs'|);
    assert SortedByTimestamp(rs') by {
      forall i, j | 0 <= i < j < |rs'| ensures rs'[i].timestamp <= rs'[j].timestamp {
        if j == |rs| {
          assert rs'[i] == rs[i] && rs'[j] == m[id];
        }
      }
    }
    assert DistinctIds(rs') by {
      forall j | 0 <= j < |rs| ensures rs'[j].id != id {
        assert rs[j].id in IdsBefore(rs, |rs|);
      }
    }
    assert forall i :: 0 <= i < |rs'| ==> rs'[i].id in m && m[rs'[i].id] == rs'[i];
  }

  /** A listing with nothing remaining covers every id of the table. */
  lemma ListedAll(m: map<string, QueuedRequest>, rs: seq<QueuedRequest>)
    requires ListedSoFar(m, rs, {})
    ensures IdsBefore(rs, |rs|) == m.Keys
  {
    assert forall id :: id in IdsBefore(rs, |rs|) ==> id in m;
    forall id | id in m ensures id in IdsBefore(rs, |rs|) {
      assert id !in m.Keys - IdsBefore(rs, |rs|);
    }
  }

  /** Listing one more request adds its id. */
  lemma IdsBeforeNext(rs: seq<QueuedRequest>, n: nat)
    requires n < |rs|
    ensures IdsBefore(rs, n + 1) == IdsBefore(rs, n) + {rs[n].id}
  {
    forall id ensures id in IdsBefore(rs, n + 1) <==> id in IdsBefore(rs, n) + {rs[n].id} {
      if id in IdsBefore(rs, n + 1) {
        var j :| 0 <= j < n + 1 && rs[j].id == id;
        if j < n {
          assert id in IdsBefore(rs, n);
        }
      }
    }
  }

  /** The table part-way through a replay: the entries in `done` are replayed, the rest untouched. */
  function ReplayedOn(m: map<string, QueuedRequest>, done: set<string>, fetch: QueuedRequest -> FetchResult): map<string, QueuedRequest> {
    map id | id in m && (id !in done || !Delivers(fetch(m[id]))) :: if id in done then Retried(m[id], fetch(m[id])) else m[id]
  }

  /** Replaying one more entry removes it when delivered and retries it otherwise. */
  lemma ReplayStep(m: map<string, QueuedRequest>, done: set<string>, id: string, fetch: QueuedRequest -> FetchResult)
    requires id in m && id !in done
    ensures Delivers(fetch(m[id])) ==> ReplayedOn(m, done + {id}, fetch) == ReplayedOn(m, done, fetch) - {id}
    ensures !Delivers(fetch(m[id])) ==>
              ReplayedOn(m, done + {id}, fetch) == ReplayedOn(m, done, fetch)[id := Retried(m[id], fetch(m[id]))]
  {
    var before, after := ReplayedOn(m, done, fetch), ReplayedOn(m, done + {id}, fetch);
    if Delivers(fetch(m[id])) {
      assert after.Keys == before.Keys - {id};
    } else {
      assert after.Keys == before.Keys + {id};
    }
  }

  /** The queue table; each entry is stored under its own id. */
  class RequestQueue {
    var entries: map<string, QueuedRequest>

    ghost predicate Valid()
      reads this
    {
      forall id :: id in entries ==> entries[id].id == id
    }

    constructor ()
      ensures Valid() && entries == map[]
    {
      entries := map[];
    }

    /**
     * Stores a new entry under `id` and returns that id; an id already in
     * the table fails and changes nothing.
     */
    method AddToQueue(url: string, init: RequestInit, reportLocalId: string, id: string, now: int) returns (r: Result<string>)
      requires Valid()
      modifies this
      ensures Valid()
      ensures id in old(entries) ==> r == Err(Db.ConstraintError) && entries == old(entries)
      ensures id !in old(entries) ==>
                r == Ok(id) && entries == old(entries)[id := NewEntry(id, url, init, reportLocalId, now)]
    {
      if id in entries {
        return Err(Db.ConstraintError);
      }
      entries := entries[id := NewEntry(id, url, init, reportLocalId, now)];
      r := Ok(id);
    }

    /**
     * Every entry once, oldest first (ties between equal timestamps are
     * listed in some order the model does not fix).
     */
    method GetPendingRequests() returns (rs: seq<QueuedRequest>)
      requires Valid()
      ensures SortedByTimestamp(rs)
      ensures DistinctIds(rs)
      ensures IdsBefore(rs, |rs|) == entries.Keys
      ensures forall i :: 0 <= i < |rs| ==> rs[i].id in entries && entries[rs[i].id] == rs[i]
    {
      rs := [];
      var rest := entries.Keys;
      while rest != {}
        invariant ListedSoFar(entries, rs, rest)
        decreases rest
      {
        ghost var oldest := OldestId(entries, rest);
        var id :| id in rest && forall k :: k in rest ==> entries[id].timestamp <= entries[k].timestamp;
        AppendOldest(entries, rs, rest, id);
        rs := rs + [entries[id]];
        rest := rest - {id};
      }
      ListedAll(entries, rs);
    }

    function GetQueueSize(): (n: nat)
      reads this
      ensures n == |entries|
    {
      |entries|
    }

    /** Deletes exactly that entry; an absent id changes nothing. */
    method RemoveFromQueue(id: string)
      requires Valid()
      modifies this
      ensures Valid()
      ensures entries == old(entries) - {id}
    {
      entries := entries - {id};
    }

    /** Writes the given fields of that one entry; an absent id changes nothing. */
    method UpdateQueueItem(id: string, patch: QueuePatch)
      requires Valid()
      modifies this
      ensures Valid()
      ensures id !in old(entries) ==> entries == old(entries)
      ensures id in old(entries) ==> entries == old(entries)[id := Applied(old(entries)[id], patch)]
    {
      if id in entries {
        entries := entries[id := Applied(entries[id], patch)];
      }
    }

    method ClearQueue()
      requires Valid()
      modifies this
      ensures Valid()
      ensures entries == map[]
    {
      entries := map[];
    }

    /** Settles one replayed request: removed when delivered, otherwise retried with its cause. */
    method ReplayOne(request: QueuedRequest, response: FetchResult, ghost fetch: QueuedRequest -> FetchResult) returns (ok: bool)
      requires Valid() && response == fetch(request)
      modifies this
      ensures Valid()
      ensures ok == Delivers(response)
      ensures entries == Settled(old(entries), request, fetch)
    {
      ok := Delivers(response);
      if ok {
        RemoveFromQueue(request.id);
      } else {
        UpdateQueueItem(request.id, RetryPatch(request, response));
      }
    }

    /**
     * Replays every entry of a snapshot once, oldest first; a failure does
     * not stop the pass. Delivered entries are removed and counted; the
     * others stay with one more retry and the cause. The count is the number
     * of entries removed.
     */
    method ProcessQueue(fetch: QueuedRequest -> FetchResult) returns (successCount: nat)
      requires Valid()
      modifies this
      ensures Valid()
      ensures entries == Replayed(old(entries), fetch)
      ensures successCount == |DeliveredIds(old(entries), fetch)|
      ensures successCount <= |old(entries)| && |entries| == |old(entries)| - successCount
    {
      var requests := GetPendingRequests();
      SettledListingIsReplay(entries, requests, fetch);
      ReplayAccounting(entries, fetch);
      successCount := ReplayListed(requests, fetch);
    }

    /** The loop of `ProcessQueue`: settles the listed requests one after the other. */
    method ReplayListed(requests: seq<QueuedRequest>, fetch: QueuedRequest -> FetchResult) returns (successCount: nat)
      requires Valid()
      modifies this
      ensures Valid()
      ensures entries == SettledPrefix(old(entries), requests, |requests|, fetch)
      ensures successCount == DeliveredCount(requests, |requests|, fetch)
    {
      ghost var start := entries;
      successCount := 0;
      var i := 0;
      while i < |requests|
        invariant 0 <= i <= |requests|
        invariant Valid()
        invariant entries == SettledPrefix(start, requests, i, fetch)
        invariant successCount == DeliveredCount(requests, i, fetch)
      {
        var request := requests[i];
        var response := fetch(request);
        var ok := ReplayOne(request, response, fetch);
        if ok {
          successCount := successCount + 1;
        }
        i := i + 1;
      }
    }
  }
}
