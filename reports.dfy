/**
 * The report store and its sync state machine (`hooks/useReports.ts`).
 *
 * Reports live in a table keyed by `localId`; a report starts `Pending`, a
 * sync attempt moves it to `Synced` or `Failed`, a retry puts it back to
 * `Pending` and attempts again. The network outcome, the clock, the server id
 * and the sync-time position fix are inputs of each attempt (`Attempt`).
 */
module Reports {
  import opened Common
  import opened Db

  /** What one sync attempt meets. */
  datatype Outcome =
    /** The simulated request succeeded; the server id is "srv-" followed by `serverTag` (eight characters of a UUID). */
    | Delivered(serverTag: string, syncedAt: string, location: Option<Location>)
    /** The simulated request failed (the 10% case). */
    | TimedOut
    /** The store rejected the first read of the attempt: the attempt throws before changing anything. */
    | StoreError

  /** One attempt: the time it starts and what it meets. */
  datatype Attempt = Attempt(startedAt: string, outcome: Outcome)

  const TimeoutMessage: string := "Network timeout - will retry automatically"

  /** The fields of a new report that the form supplies. */
  datatype ReportDraft = ReportDraft(
    incidentType: IncidentType,
    severity: Severity,
    description: Option<string>,
    manualAddress: Option<string>,
    locationCapturedAtCreation: Location,
    deviceTime: string,
    userCorrectedTime: Option<string>,
    photoBlob: Option<seq<bv8>>)

  /** The fields fixed at creation, which no sync step changes. */
  predicate SameCreationData(r: IncidentReport, r': IncidentReport) {
    && r'.localId == r.localId
    && r'.incidentType == r.incidentType && r'.severity == r.severity
    && r'.description == r.description && r'.manualAddress == r.manualAddress
    && r'.createdAtLocal == r.createdAtLocal
    && r'.locationCapturedAtCreation == r.locationCapturedAtCreation
    && r'.deviceTime == r.deviceTime && r'.userCorrectedTime == r.userCorrectedTime
    && r'.deviceTimezone == r.deviceTimezone && r'.timezoneOffsetMinutes == r.timezoneOffsetMinutes
    && r'.responderId == r.responderId && r'.deviceId == r.deviceId && r'.appVersion == r.appVersion
    && r'.photoBlob == r.photoBlob
  }

  /**
   * A stored report is consistent: it sits under its own `localId`, a synced
   * report has a server id and a sync time, and the server id and the sync
   * time are set together (both are written only by a successful attempt and
   * never cleared).
   */
  predicate WellFormed(id: string, r: IncidentReport) {
    && r.localId == id
    && (r.syncStatus == Synced ==> r.serverId.Some?)
    && (r.serverId.Some? <==> r.syncedAt.Some?)
  }

  predicate TableValid(m: map<string, IncidentReport>) {
    forall id :: id in m ==> WellFormed(id, m[id])
  }

  /** The report `createReport` builds: pending, never attempted, not yet known to the server. */
  predicate IsNewReport(r: IncidentReport, draft: ReportDraft, localId: string, now: string, device: DeviceInfo, responderId: Deferred<string>) {
    && r.localId == localId
    && r.syncStatus == Pending && r.syncAttempts == 0
    && r.serverId == None && r.syncedAt == None && r.lastSyncError == None && r.locationCapturedAtSync == None
    && r.createdAtLocal == now && r.lastEditedAtLocal == now
    && r.incidentType == draft.incidentType && r.severity == draft.severity
    && r.description == draft.description && r.manualAddress == draft.manualAddress
    && r.locationCapturedAtCreation == draft.locationCapturedAtCreation
    && r.deviceTime == draft.deviceTime && r.userCorrectedTime == draft.userCorrectedTime
    && r.photoBlob == draft.photoBlob
    && r.deviceId == device.deviceId && r.appVersion == device.appVersion
    && r.deviceTimezone == device.deviceTimezone && r.timezoneOffsetMinutes == device.timezoneOffsetMinutes
    && r.responderId == responderId
  }

  /**
   * A report after one attempt that got past its first read: one more attempt
   * counted, creation data kept; a delivery marks it synced with a server id
   * and a sync time and clears the error; a timeout marks it failed with the
   * retry message and keeps whatever server id and sync time it had.
   */
  function Attempted(r: IncidentReport, a: Attempt): (r': IncidentReport)
    requires !a.outcome.StoreError?
    ensures SameCreationData(r, r')
    ensures r'.syncAttempts == r.syncAttempts + 1 && r'.lastEditedAtLocal == a.startedAt
    ensures a.outcome.Delivered? ==>
              && r'.syncStatus == Synced
              && r'.serverId == Some("srv-" + a.outcome.serverTag)
              && r'.syncedAt == Some(a.outcome.syncedAt)
              && r'.locationCapturedAtSync == a.outcome.location
              && r'.lastSyncError == None
    ensures a.outcome.TimedOut? ==>
              && r'.syncStatus == Failed
              && r'.lastSyncError == Some(TimeoutMessage)
              && r'.serverId == r.serverId && r'.syncedAt == r.syncedAt
              && r'.locationCapturedAtSync == r.locationCapturedAtSync
    ensures WellFormed(r.localId, r) ==> WellFormed(r.localId, r')
  {
    var counted := r.(syncAttempts := r.syncAttempts + 1, lastEditedAtLocal := a.startedAt);
    match a.outcome
    case Delivered(tag, at, location) =>
      counted.(syncStatus := Synced, serverId := Some("srv-" + tag), syncedAt := Some(at),
               locationCapturedAtSync := location, lastSyncError := None)
    case TimedOut =>
      counted.(syncStatus := Failed, lastSyncError := Some(TimeoutMessage))
  }

  /** Delivering the same report twice leaves one synced record carrying the later response's server id and time. */
  lemma DeliveredTwice(r: IncidentReport, a1: Attempt, a2: Attempt)
    requires a1.outcome.Delivered? && a2.outcome.Delivered?
    ensures var r2 := Attempted(Attempted(r, a1), a2);
      && r2.syncStatus == Synced && r2.lastSyncError == None
      && r2.serverId == Some("srv-" + a2.outcome.serverTag) && r2.syncedAt == Some(a2.outcome.syncedAt)
      && r2.syncAttempts == r.syncAttempts + 2
      && SameCreationData(r, r2)
  {
  }

  /** One attempt on the table: an unknown id changes nothing. */
  function SyncStep(m: map<string, IncidentReport>, id: string, a: Attempt): map<string, IncidentReport>
    requires !a.outcome.StoreError?
  {
    if id in m then m[id := Attempted(m[id], a)] else m
  }

  /**
   * Attempts the reports of `order` one after another, stopping at the first
   * attempt that throws; returns the table and whether the pass threw.
   */
  function RunPass(m: map<string, IncidentReport>, order: seq<string>, attempts: string -> Attempt): (map<string, IncidentReport>, bool)
  {
    if order == [] then (m, false)
    else
      var a := attempts(order[0]);
      if a.outcome.StoreError? then (m, true)
      else RunPass(SyncStep(m, order[0], a), order[1..], attempts)
  }

  /** A pass never adds or removes reports, and keeps every record consistent. */
  lemma {:induction false} RunPassKeepsTable(m: map<string, IncidentReport>, order: seq<string>, attempts: string -> Attempt)
    ensures RunPass(m, order, attempts).0.Keys == m.Keys
    ensures TableValid(m) ==> TableValid(RunPass(m, order, attempts).0)
  {
    if order != [] && !attempts(order[0]).outcome.StoreError? {
      RunPassKeepsTable(SyncStep(m, order[0], attempts(order[0])), order[1..], attempts);
    }
  }

  /** A pass throws exactly when one of its attempts meets a store error. */
  lemma {:induction false} RunPassThrows(m: map<string, IncidentReport>, order: seq<string>, attempts: string -> Attempt)
    ensures RunPass(m, order, attempts).1 <==> exists i :: 0 <= i < |order| && attempts(order[i]).outcome.StoreError?
  {
    if order != [] && !attempts(order[0]).outcome.StoreError? {
      RunPassThrows(SyncStep(m, order[0], attempts(order[0])), order[1..], attempts);
      assert forall i :: 1 <= i < |order| ==> order[i] == order[1..][i - 1];
    }
  }

  /** A report the pass does not visit is left exactly as it was. */
  lemma {:induction false} RunPassLeavesOthers(m: map<string, IncidentReport>, order: seq<string>, attempts: string -> Attempt, id: string)
    requires id in m && id !in order
    ensures id in RunPass(m, order, attempts).0 && RunPass(m, order, attempts).0[id] == m[id]
  {
    if order != [] && !attempts(order[0]).outcome.StoreError? {
      RunPassLeavesOthers(SyncStep(m, order[0], attempts(order[0])), order[1..], attempts, id);
    }
  }

  /**
   * A pass over distinct reports that does not throw attempts each of them
   * exactly once: each ends as one attempt applied to its old record.
   */
  lemma {:induction false} RunPassAttemptsEachOnce(m: map<string, IncidentReport>, order: seq<string>, attempts: string -> Attempt, id: string)
    requires Distinct(order) && id in m && id in order
    requires forall i :: 0 <= i < |order| ==> !attempts(order[i]).outcome.StoreError?
    ensures id in RunPass(m, order, attempts).0
    ensures RunPass(m, order, attempts).0[id] == Attempted(m[id], attempts(id))
  {
    var m' := SyncStep(m, order[0], attempts(order[0]));
    if order[0] == id {
      assert id !in order[1..] by {
        forall i | 0 <= i < |order[1..]| ensures order[1..][i] != id {
          assert order[1..][i] == order[i + 1];
        }
      }
      RunPassLeavesOthers(m', order[1..], attempts, id);
    } else {
      assert id in order[1..];
      RunPassAttemptsEachOnce(m', order[1..], attempts, id);
    }
  }

  /** The ids of the reports in status `s`. */
  function StatusKeys(m: map<string, IncidentReport>, s: SyncStatus): set<string> {
    set id | id in m && m[id].syncStatus == s
  }

  function CountWithStatus(m: map<string, IncidentReport>, s: SyncStatus): nat {
    |StatusKeys(m, s)|
  }

  /** Every report is counted under exactly one status. */
  lemma CountsPartition(m: map<string, IncidentReport>)
    ensures CountWithStatus(m, Pending) + CountWithStatus(m, Synced) + CountWithStatus(m, Failed) == |m|
  {
    var p, s, f := StatusKeys(m, Pending), StatusKeys(m, Synced), StatusKeys(m, Failed);
    assert m.Keys == p + s + f;
    DisjointUnionSize(p, s);
    DisjointUnionSize(p + s, f);
  }

  /**
   * The order a bulk pass visits: every pending report, then every failed one,
   * each once, and nothing else (within one status the store's own index
   * order is not modelled).
   */
  predicate PendingThenFailed(m: map<string, IncidentReport>, order: seq<string>) {
    var k := CountWithStatus(m, Pending);
    && k <= |order|
    && Distinct(order)
    && (forall i :: 0 <= i < k ==> order[i] in m && m[order[i]].syncStatus == Pending)
    && (forall i :: k <= i < |order| ==> order[i] in m && m[order[i]].syncStatus == Failed)
    && (forall id :: id in m && m[id].syncStatus != Synced ==> id in order)
  }

  /** The reports table and the in-progress flag of the report hook. */
  class ReportStore {
    var reports: map<string, IncidentReport>
    var syncing: bool

    ghost predicate Valid()
      reads this
    {
      TableValid(reports)
    }

    constructor ()
      ensures Valid() && reports == map[] && !syncing
    {
      reports := map[];
      syncing := false;
    }

    function PendingCount(): nat reads this { CountWithStatus(reports, Pending) }
    function SyncedCount(): nat reads this { CountWithStatus(reports, Synced) }
    function FailedCount(): nat reads this { CountWithStatus(reports, Failed) }

    /**
     * Adds exactly one record, built from the draft, the device info (which
     * may store a fresh device id) and the current responder id. Adding an id
     * the table already holds fails and leaves the table as it was.
     */
    method CreateReport(local: LocalStore, draft: ReportDraft, localId: string, now: string,
                        freshDeviceId: string, timezone: string, offsetMinutes: int)
      returns (r: Result<IncidentReport>)
      requires Valid()
      modifies this`reports, local`storage
      ensures Valid()
      ensures local.storage == (if StoredItem(old(local.storage), DeviceIdKey).Some? then old(local.storage)
                                else old(local.storage)[DeviceIdKey := freshDeviceId])
      ensures localId in old(reports) ==> r == Err(ConstraintError) && reports == old(reports)
      ensures localId !in old(reports) ==> r.Ok? && reports == old(reports)[localId := r.value]
      ensures r.Ok? ==>
                var deviceId := if StoredItem(old(local.storage), DeviceIdKey).Some? then old(local.storage)[DeviceIdKey] else freshDeviceId;
                IsNewReport(r.value, draft, localId, now,
                            DeviceInfo(deviceId, AppVersion, timezone, offsetMinutes),
                            Deferred(local.GetResponderId()))
    {
      var device := local.GetDeviceInfo(freshDeviceId, timezone, offsetMinutes);
      var report := IncidentReport(
        localId, None, Pending,
        draft.incidentType, draft.severity, draft.description, draft.manualAddress,
        now, now, None, 0, None,
        draft.locationCapturedAtCreation, None,
        draft.deviceTime, draft.userCorrectedTime,
        device.deviceTimezone, device.timezoneOffsetMinutes,
        Deferred(local.GetResponderId()), device.deviceId, device.appVersion,
        draft.photoBlob);
      if localId in reports {
        return Err(ConstraintError);
      }
      reports := reports[localId := report];
      r := Ok(report);
    }

    /**
     * One sync attempt. An unknown id changes nothing; a known one goes
     * through `Attempted`, whatever the outcome. A store error throws before
     * anything changes.
     */
    method SyncReport(localId: string, a: Attempt) returns (threw: bool)
      requires Valid()
      modifies this`reports
      ensures Valid()
      ensures threw == a.outcome.StoreError?
      ensures threw ==> reports == old(reports)
      ensures !threw ==> reports == SyncStep(old(reports), localId, a)
    {
      if a.outcome.StoreError? {
        return true;
      }
      threw := false;
      if localId in reports {
        reports := reports[localId := Attempted(reports[localId], a)];
      }
    }

    /**
     * The ids of the reports in status `s`, each once (the store's
     * `where("syncStatus").equals(s)` query; its order is not modelled).
     */
    method ListStatus(s: SyncStatus) returns (ks: seq<string>)
      ensures Distinct(ks)
      ensures forall i :: 0 <= i < |ks| ==> ks[i] in reports && reports[ks[i]].syncStatus == s
      ensures forall id :: id in reports && reports[id].syncStatus == s ==> id in ks
      ensures |ks| == CountWithStatus(reports, s)
    {
      ks := [];
      var rest := StatusKeys(reports, s);
      while rest != {}
        invariant Distinct(ks)
        invariant forall i :: 0 <= i < |ks| ==> ks[i] in StatusKeys(reports, s) && ks[i] !in rest
        invariant forall id :: id in StatusKeys(reports, s) ==> id in rest || id in ks
        invariant rest <= StatusKeys(reports, s)
        decreases rest
      {
        var id :| id in rest;
        ks := ks + [id];
        rest := rest - {id};
      }
      DistinctCardinality(ks);
      assert (set x | x in ks) == StatusKeys(reports, s);
    }

    /**
     * The guarded bulk pass. Offline, or with a pass already running, it does
     * nothing. Otherwise it raises `syncing`, attempts every pending report
     * and then every failed one, each once and in turn, never touching a
     * synced report, and clears `syncing` at the end. An attempt that throws
     * ends the pass and leaves `syncing` raised: there is no `finally`.
     */
    method SyncAllPending(online: bool, attempts: string -> Attempt) returns (toSync: seq<string>)
      requires Valid()
      modifies this
      ensures Valid()
      ensures !online || old(syncing) ==> toSync == [] && reports == old(reports) && syncing == old(syncing)
      ensures online && !old(syncing) ==>
                && PendingThenFailed(old(reports), toSync)
                && reports == RunPass(old(reports), toSync, attempts).0
                && syncing == RunPass(old(reports), toSync, attempts).1
    {
      if !online || syncing {
        return [];
      }
      syncing := true;
      var pending := ListStatus(Pending);
      var failed := ListStatus(Failed);
      toSync := pending + failed;
      assert PendingThenFailed(reports, toSync);
      RunListed(toSync, attempts);
    }

    /**
     * The loop of `SyncAllPending`: syncs the listed reports in order and
     * stops at the first attempt that throws, leaving the flag set; a pass
     * that runs to the end clears it.
     */
    method RunListed(order: seq<string>, attempts: string -> Attempt)
      requires Valid() && syncing
      modifies this
      ensures Valid()
      ensures reports == RunPass(old(reports), order, attempts).0
      ensures syncing == RunPass(old(reports), order, attempts).1
    {
      ghost var start := reports;
      var i := 0;
      while i < |order|
        invariant 0 <= i <= |order|
        invariant Valid() && syncing
        invariant RunPass(reports, order[i..], attempts) == RunPass(start, order, attempts)
      {
        var threw := SyncReport(order[i], attempts(order[i]));
        if threw {
          return;
        }
        assert order[i..][1..] == order[i + 1..];
        i := i + 1;
      }
      syncing := false;
    }

    /**
     * Retry of one report. Offline it is rejected with no change and no
     * attempt. Online the report is set back to pending and then attempted
     * once; an unknown id changes nothing. A store error during the
     * attempt is passed on to the caller as `threw`.
     */
    method RetrySync(localId: string, online: bool, a: Attempt) returns (rejected: bool, threw: bool)
      requires Valid()
      modifies this`reports
      ensures Valid()
      ensures rejected == !online
      ensures threw == (online && a.outcome.StoreError?)
      ensures rejected ==> !threw
      ensures !online || localId !in old(reports) ==> reports == old(reports)
      ensures online && localId in old(reports) ==>
                var reset := old(reports)[localId].(syncStatus := Pending);
                reports == old(reports)[localId := if a.outcome.StoreError? then reset else Attempted(reset, a)]
    {
      if !online {
        return true, false;
      }
      rejected := false;
      if localId in reports {
        reports := reports[localId := reports[localId].(syncStatus := Pending)];
      }
      threw := SyncReport(localId, a);
    }

    /** Removes exactly that report; deleting an absent id changes nothing, so deleting twice is deleting once. */
    method DeleteReport(localId: string)
      requires Valid()
      modifies this`reports
      ensures Valid()
      ensures reports == old(reports) - {localId}
      ensures localId !in old(reports) ==> reports == old(reports)
    {
      reports := reports - {localId};
    }
  }
}
