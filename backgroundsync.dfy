/**
 * The page-side background-sync controller (`hooks/useBackgroundSync.ts`):
 * its state record, the single-flight drain of the request queue, the
 * auto-sync guard, the handling of the service worker's messages, and the
 * routing of one report to a direct send or to the queue.
 *
 * The hook binds `isOnline` to the whole result of `useOnlineStatus()`,
 * an object that is always truthy; every other caller destructures its
 * `isOnline` field. The functions `OnlineBinding`, `DirectPathTaken` and
 * `AutoSyncDueAsWritten` model that binding as written; the controller's
 * methods take the connectivity flag itself, which is what the code
 * evidently intends.
 */
module BackgroundSync {
  import opened Common
  import opened JsValues
  import opened SyncQueue
  import ServiceWorker

  const SyncEndpoint: string := "/api/sync-reports"
  const SyncTag: string := "aegis-sync-queue"
  const SyncFailed: string := "Sync failed"

  /** The options of the POST that queues one report. */
  function ReportRequest(body: string): RequestInit {
    RequestInit(Some("POST"), Some(map["Content-Type" := "application/json"]), Some(body))
  }

  /** `{ success, serverId?, error? }`. */
  datatype SyncResult = SyncResult(success: bool, serverId: Option<string>, error: Option<string>)

  /** The `data` of a sync response; only its `serverId` is read. */
  datatype ReplyData = ReplyData(serverId: Option<string>)

  /** What the direct `syncReport` call gives: a parsed response, or the error it throws. */
  datatype DirectReply =
    | Replied(success: bool, data: Option<ReplyData>, error: Option<string>)
    | DirectThrew(thrown: Thrown)

  /** The message of the error the direct path throws on a response without success and data. */
  function RejectionMessage(error: Option<string>): (m: string)
    ensures m != ""
    ensures error.Some? && error.value != "" ==> m == error.value
    ensures error.None? || error.value == "" ==> m == SyncFailed
  {
    if error.Some? && error.value != "" then error.value else SyncFailed
  }

  /** The value `useOnlineStatus()` returns: an object holding the flag. */
  function OnlineBinding(online: bool): JsValue {
    Obj(map["isOnline" := Bool(online)])
  }

  /** `if (isOnline)` for whatever `isOnline` is bound to. */
  predicate DirectPathTaken(isOnline: JsValue) {
    Truthy(isOnline)
  }

  /**
   * As written, the direct path is taken whatever the connectivity: even
   * offline, `syncSingleReport` never reaches its enqueue-while-offline branch.
   */
  lemma AsWrittenAlwaysDirect(online: bool)
    ensures DirectPathTaken(OnlineBinding(online))
  {
  }

  /** Reading the field, as the other callers do, restores the intended test. */
  lemma FieldBindingFollowsConnectivity(online: bool)
    ensures Get(OnlineBinding(online), "isOnline") == Value(Bool(online))
    ensures DirectPathTaken(Bool(online)) <==> online
  {
  }

  /** The auto-sync condition as written: the connectivity test is always true. */
  predicate AutoSyncDueAsWritten(online: bool, queueSize: int, isSyncing: bool) {
    Truthy(OnlineBinding(online)) && queueSize > 0 && !isSyncing
  }

  /** As written, a non-empty queue schedules an automatic drain even while offline. */
  lemma AsWrittenAutoSyncIgnoresConnectivity(queueSize: int, isSyncing: bool)
    ensures AutoSyncDueAsWritten(false, queueSize, isSyncing) <==> queueSize > 0 && !isSyncing
  {
  }

  /** The auto-sync guard with the connectivity test reading the flag. */
  predicate AutoSyncDue(online: bool, queueSize: int, isSyncing: bool) {
    DirectPathTaken(Bool(online)) && queueSize > 0 && !isSyncing
  }

  /**
   * With the flag read, an automatic drain is scheduled only while online,
   * with something queued and no drain in progress; online, the guard agrees
   * with the one as written, so the two differ exactly when offline.
   */
  lemma AutoSyncOnlyOnline(online: bool, queueSize: int, isSyncing: bool)
    ensures AutoSyncDue(online, queueSize, isSyncing) <==> online && queueSize > 0 && !isSyncing
    ensures online ==> (AutoSyncDue(online, queueSize, isSyncing) <==> AutoSyncDueAsWritten(online, queueSize, isSyncing))
    ensures !online && queueSize > 0 && !isSyncing ==>
              !AutoSyncDue(online, queueSize, isSyncing) && AutoSyncDueAsWritten(online, queueSize, isSyncing)
  {
  }

  /** A message the service worker posts; only its `type` is read. */
  function MessageType(data: JsValue): (r: Option<string>)
    ensures r.Some? ==> Get(data, "type") == Value(Str(r.value))
  {
    match Get(data, "type")
    case Value(Str(t)) => Some(t)
    case _ => None
  }

  /** The hook's state record, with the queue it drains and the sync tags it has registered. */
  class SyncController {
    var isSupported: bool
    var queueSize: int
    var isSyncing: bool
    var lastSyncTime: Option<int>
    var registeredTags: seq<string>
    const queue: RequestQueue

    ghost predicate Valid()
      reads this, queue
    {
      queue.Valid()
    }

    constructor (q: RequestQueue)
      requires q.Valid()
      ensures Valid() && queue == q
      ensures !isSupported && queueSize == 0 && !isSyncing && lastSyncTime == None && registeredTags == []
    {
      queue := q;
      isSupported := false;
      queueSize := 0;
      isSyncing := false;
      lastSyncTime := None;
      registeredTags := [];
    }

    /** `updateQueueSize`. */
    method UpdateQueueSize()
      modifies this`queueSize
      ensures queueSize == |queue.entries|
    {
      queueSize := queue.GetQueueSize();
    }

    /**
     * Start-up: records whether background sync is supported and, once the
     * service worker is registered, reads the queue size.
     */
    method Initialize(supported: bool, registered: bool)
      modifies this`isSupported, this`queueSize
      ensures isSupported == supported
      ensures registered ==> queueSize == |queue.entries|
      ensures !registered ==> queueSize == old(queueSize)
    {
      isSupported := supported;
      if registered {
        UpdateQueueSize();
      }
    }

    /**
     * `syncPendingRequests`: a call made while a drain is in progress returns
     * 0 and changes nothing. Otherwise the queue is drained once, the flag is
     * cleared again on both paths, and the result is the drain's count, or 0
     * when the store fails (it then fails before changing anything).
     */
    method SyncPendingRequests(fetch: QueuedRequest -> FetchResult, storeFails: bool, now: int) returns (n: nat)
      requires Valid()
      modifies this, queue
      ensures Valid()
      ensures old(isSyncing) ==>
                n == 0 && isSyncing && queue.entries == old(queue.entries)
                && queueSize == old(queueSize) && lastSyncTime == old(lastSyncTime)
      ensures !old(isSyncing) ==> !isSyncing
      ensures !old(isSyncing) && storeFails ==>
                n == 0 && queue.entries == old(queue.entries)
                && queueSize == old(queueSize) && lastSyncTime == old(lastSyncTime)
      ensures !old(isSyncing) && !storeFails ==>
                && queue.entries == Replayed(old(queue.entries), fetch)
                && n == |DeliveredIds(old(queue.entries), fetch)|
                && queueSize == |queue.entries| == |old(queue.entries)| - n
                && lastSyncTime == Some(now)
      ensures isSupported == old(isSupported) && registeredTags == old(registeredTags)
    {
      if isSyncing {
        return 0;
      }
      isSyncing := true;
      if storeFails {
        isSyncing := false;
        return 0;
      }
      n := queue.ProcessQueue(fetch);
      UpdateQueueSize();
      isSyncing := false;
      lastSyncTime := Some(now);
    }

    /**
     * A message from the service worker: SYNC_COMPLETE ends the drain and
     * records its time, SYNC_SUCCESS only refreshes the size; anything else,
     * including data whose `type` cannot be read, changes nothing.
     */
    method HandleMessage(data: JsValue, now: int)
      modifies this`isSyncing, this`lastSyncTime, this`queueSize
      ensures MessageType(data) == Some("SYNC_COMPLETE") ==>
                !isSyncing && lastSyncTime == Some(now) && queueSize == |queue.entries|
      ensures MessageType(data) == Some("SYNC_SUCCESS") ==>
                isSyncing == old(isSyncing) && lastSyncTime == old(lastSyncTime) && queueSize == |queue.entries|
      ensures MessageType(data) != Some("SYNC_COMPLETE") && MessageType(data) != Some("SYNC_SUCCESS") ==>
                isSyncing == old(isSyncing) && lastSyncTime == old(lastSyncTime) && queueSize == old(queueSize)
    {
      var t := MessageType(data);
      if t == Some("SYNC_COMPLETE") {
        isSyncing := false;
        lastSyncTime := Some(now);
        UpdateQueueSize();
      }
      if t == Some("SYNC_SUCCESS") {
        UpdateQueueSize();
      }
    }

    /**
     * `syncSingleReport` with the connectivity test reading the flag.
     * Online, a reply with success and data returns its server id and leaves
     * the queue alone; any other reply or a thrown error queues the report for
     * retry and returns the failure's message. Offline, the report is queued,
     * the sync tag registered when supported, and the result is a success
     * without a server id. The call itself fails only when the retry
     * enqueue after an online failure fails.
     */
    method SyncSingleReport(localId: string, body: string, online: bool, reply: DirectReply, queueId: string, now: int)
      returns (r: Result<SyncResult>)
      requires Valid()
      modifies this`queueSize, this`registeredTags, queue
      ensures Valid()
      ensures var entry := NewEntry(queueId, SyncEndpoint, ReportRequest(body), localId, now);
              var queued := queueId !in old(queue.entries);
              if online then
                if reply.Replied? && reply.success && reply.data.Some? then
                  && r == Ok(SyncResult(true, reply.data.value.serverId, None))
                  && queue.entries == old(queue.entries) && queueSize == old(queueSize)
                  && registeredTags == old(registeredTags)
                else
                  var message := if reply.DirectThrew? then MessageOf(reply.thrown) else RejectionMessage(reply.error);
                  && registeredTags == old(registeredTags)
                  && (queued ==>
                        && r == Ok(SyncResult(false, None, Some(message)))
                        && queue.entries == old(queue.entries)[queueId := entry]
                        && queueSize == |queue.entries|)
                  && (!queued ==> r.Err? && queue.entries == old(queue.entries) && queueSize == old(queueSize))
              else
                && (queued ==>
                      && r == Ok(SyncResult(true, None, None))
                      && queue.entries == old(queue.entries)[queueId := entry]
                      && queueSize == |queue.entries|
                      && registeredTags == old(registeredTags) + (if isSupported then [SyncTag] else []))
                && (!queued ==>
                      && r == Ok(SyncResult(false, None, Some(Db.ConstraintError)))
                      && queue.entries == old(queue.entries) && queueSize == old(queueSize)
                      && registeredTags == old(registeredTags))
    {
      if online {
        if reply.Replied? && reply.success && reply.data.Some? {
          return Ok(SyncResult(true, reply.data.value.serverId, None));
        }
        var message := if reply.DirectThrew? then MessageOf(reply.thrown) else RejectionMessage(reply.error);
        var added := queue.AddToQueue(SyncEndpoint, ReportRequest(body), localId, queueId, now);
        if added.Err? {
          return Err(added.error);
        }
        UpdateQueueSize();
        return Ok(SyncResult(false, None, Some(message)));
      }
      var added := queue.AddToQueue(SyncEndpoint, ReportRequest(body), localId, queueId, now);
      if added.Err? {
        return Ok(SyncResult(false, None, Some(added.error)));
      }
      if isSupported {
        registeredTags := registeredTags + [SyncTag];
      }
      UpdateQueueSize();
      r := Ok(SyncResult(true, None, None));
    }
  }

  /** The entry a report is queued as: a JSON POST of its payload to the sync endpoint, tagged with its local id. */
  lemma QueuedEntryCarriesReport(queueId: string, body: string, localId: string, now: int)
    ensures var e := NewEntry(queueId, SyncEndpoint, ReportRequest(body), localId, now);
            && e.httpMethod == "POST" && e.url == "/api/sync-reports" && e.reportLocalId == localId
            && e.body == Some(body) && e.headers == map["Content-Type" := "application/json"]
            && e.retryCount == 0 && e.lastError == None
  {
  }

  /**
   * A report queued by the page is a POST to exactly the path the service
   * worker's background-sync route intercepts, so a replay of it from the
   * page goes through that route too.
   */
  lemma QueuedReportIsRouted(queueId: string, body: string, localId: string, now: int)
    ensures var e := NewEntry(queueId, SyncEndpoint, ReportRequest(body), localId, now);
            ServiceWorker.IsSyncRoute(e.url, e.httpMethod)
  {
  }

  /** The tag the page registers is the one whose `sync` event makes the service worker replay its queue. */
  lemma RegisteredTagTriggersReplay(tag: string)
    ensures ServiceWorker.TriggersReplay(tag) <==> tag == SyncTag
  {
  }
}
