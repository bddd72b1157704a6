/**
 * The local database of the app (`lib/db.ts`): the record types of incident
 * reports and responder profiles, the domain lookup tables, and the helpers
 * over `localStorage` and the responders table.
 */
module Db {
  import opened Common

  datatype SyncStatus = Pending | Synced | Failed

  datatype IncidentType = Flood | Landslide | Fire | Accident | RoadBlock | PowerLineDown

  datatype Severity = Low | Medium | High | Critical

  /** A position fix; the coordinates are only stored and compared, never computed with. */
  datatype Location = Location(lat: real, lng: real, accuracyMeters: real)

  /** A promise that nobody awaited: the record holds the promise, which settles to `settlesTo`. */
  datatype Deferred<T> = Deferred(settlesTo: T)

  datatype IncidentReport = IncidentReport(
    localId: string,
    serverId: Option<string>,
    syncStatus: SyncStatus,
    incidentType: IncidentType,
    severity: Severity,
    description: Option<string>,
    manualAddress: Option<string>,
    createdAtLocal: string,
    lastEditedAtLocal: string,
    syncedAt: Option<string>,
    syncAttempts: nat,
    lastSyncError: Option<string>,
    locationCapturedAtCreation: Location,
    locationCapturedAtSync: Option<Location>,
    deviceTime: string,
    userCorrectedTime: Option<string>,
    deviceTimezone: string,
    timezoneOffsetMinutes: int,
    responderId: Deferred<string>,
    deviceId: string,
    appVersion: string,
    photoBlob: Option<seq<bv8>>)

  datatype ResponderProfile = ResponderProfile(
    responderId: string,
    name: string,
    phone: string,
    email: Option<string>,
    nic: Option<string>,
    createdAt: string,
    updatedAt: string)

  /** The caller-supplied part of a new profile. */
  datatype ResponderData = ResponderData(name: string, phone: string, email: Option<string>, nic: Option<string>)

  /**
   * The fields an update may carry; an absent field is left as it is. The
   * optional fields can also be carried as `undefined` (`Some(None)`),
   * which the store's update treats as deleting them.
   */
  datatype ResponderPatch = ResponderPatch(name: Option<string>, phone: Option<string>, email: Option<Option<string>>, nic: Option<Option<string>>)

  datatype DeviceInfo = DeviceInfo(deviceId: string, appVersion: string, deviceTimezone: string, timezoneOffsetMinutes: int)

  const AppVersion: string := "1.0.0-prototype"
  const DeviceIdKey: string := "aegis_device_id"
  const ResponderIdKey: string := "aegis_responder_id"
  /** What the store reports when `add` meets a key it already holds. */
  const ConstraintError: string := "ConstraintError: Key already exists in the object store."

  /** The severity a form preselects for an incident type; never the lowest one. */
  function DefaultSeverity(t: IncidentType): (s: Severity)
    ensures s != Low
    ensures s == Critical <==> (t == Landslide || t == Fire)
    ensures s == High <==> (t == Flood || t == Accident)
    ensures s == Medium <==> (t == RoadBlock || t == PowerLineDown)
  {
    match t
    case Landslide => Critical
    case Fire => Critical
    case Flood => High
    case Accident => High
    case RoadBlock => Medium
    case PowerLineDown => Medium
  }

  function IncidentTypeLabel(t: IncidentType): string {
    match t
    case Flood => "Flood"
    case Landslide => "Landslide"
    case Fire => "Fire"
    case Accident => "Accident"
    case RoadBlock => "Road Block"
    case PowerLineDown => "Power Line Down"
  }

  datatype SeverityStyle = SeverityStyle(labelText: string, color: string)

  function SeverityConfig(s: Severity): SeverityStyle {
    match s
    case Low => SeverityStyle("Low", "bg-success")
    case Medium => SeverityStyle("Medium", "bg-warning")
    case High => SeverityStyle("High", "bg-primary")
    case Critical => SeverityStyle("Critical", "bg-destructive")
  }

  /** Every incident type and every severity has its own non-empty label, so the tables tell them apart. */
  lemma LabelsAreDistinct()
    ensures forall t :: IncidentTypeLabel(t) != ""
    ensures forall t, u :: t != u ==> IncidentTypeLabel(t) != IncidentTypeLabel(u)
    ensures forall s :: SeverityConfig(s).labelText != "" && SeverityConfig(s).color != ""
    ensures forall s, v :: s != v ==> SeverityConfig(s).labelText != SeverityConfig(v).labelText
  {
  }

  /** `localStorage.getItem(key)` when it is a truthy (present, non-empty) string. */
  function StoredItem(storage: map<string, string>, key: string): (r: Option<string>)
    ensures r.Some? <==> key in storage && storage[key] != ""
    ensures r.Some? ==> r.value == storage[key]
  {
    if key in storage && storage[key] != "" then Some(storage[key]) else None
  }

  /** A profile after an update: the patched fields, a fresh `updatedAt`, and the same identity and creation time. */
  function Patched(p: ResponderProfile, patch: ResponderPatch, now: string): (q: ResponderProfile)
    ensures q.responderId == p.responderId && q.createdAt == p.createdAt && q.updatedAt == now
    ensures q.name == (if patch.name.Some? then patch.name.value else p.name)
    ensures q.phone == (if patch.phone.Some? then patch.phone.value else p.phone)
    ensures q.email == (if patch.email.Some? then patch.email.value else p.email)
    ensures q.nic == (if patch.nic.Some? then patch.nic.value else p.nic)
    ensures patch.email == Some(None) ==> q.email.None?
    ensures patch.nic == Some(None) ==> q.nic.None?
  {
    p.(name := patch.name.GetOr(p.name),
       phone := patch.phone.GetOr(p.phone),
       email := patch.email.GetOr(p.email),
       nic := patch.nic.GetOr(p.nic),
       updatedAt := now)
  }

  /** The browser-local state `lib/db.ts` reads and writes: `localStorage` and the responders table. */
  class LocalStore {
    var storage: map<string, string>
    var responders: map<string, ResponderProfile>

    /** The responders table is keyed by each profile's own id. */
    ghost predicate Valid()
      reads this
    {
      forall id :: id in responders ==> responders[id].responderId == id
    }

    constructor ()
      ensures Valid() && storage == map[] && responders == map[]
    {
      storage := map[];
      responders := map[];
    }

    /**
     * The device id is get-or-create: a stored id is returned unchanged and
     * nothing is written; otherwise `freshId` (a random UUID) is stored and
     * returned. Either way the stored id equals the returned one afterwards,
     * so a second call returns the same id.
     */
    method GetDeviceInfo(freshId: string, timezone: string, offsetMinutes: int) returns (info: DeviceInfo)
      modifies this`storage
      ensures info.appVersion == AppVersion
      ensures info.deviceTimezone == timezone && info.timezoneOffsetMinutes == offsetMinutes
      ensures StoredItem(old(storage), DeviceIdKey).Some? ==>
                info.deviceId == old(storage)[DeviceIdKey] && storage == old(storage)
      ensures StoredItem(old(storage), DeviceIdKey).None? ==>
                info.deviceId == freshId && storage == old(storage)[DeviceIdKey := freshId]
      ensures freshId != "" ==> StoredItem(storage, DeviceIdKey) == Some(info.deviceId)
    {
      var stored := StoredItem(storage, DeviceIdKey);
      var deviceId := if stored.Some? then stored.value else freshId;
      if stored.None? {
        storage := storage[DeviceIdKey := deviceId];
      }
      info := DeviceInfo(deviceId, AppVersion, timezone, offsetMinutes);
    }

    /** The profile named by the stored current-responder id, if that id is set and present in the table. */
    function GetCurrentResponder(): (r: Option<ResponderProfile>)
      reads this
      ensures r.Some? <==> StoredItem(storage, ResponderIdKey).Some? && storage[ResponderIdKey] in responders
      ensures r.Some? ==> r.value == responders[storage[ResponderIdKey]]
      ensures Valid() && r.Some? ==> r.value.responderId == storage[ResponderIdKey]
    {
      var id := StoredItem(storage, ResponderIdKey);
      if id.None? then None
      else if id.value in responders then Some(responders[id.value])
      else None
    }

    /** The current responder's id, falling back to "anonymous": never empty. */
    function GetResponderId(): (id: string)
      reads this
      ensures id != ""
      ensures GetCurrentResponder().None? ==> id == "anonymous"
      ensures Valid() && GetCurrentResponder().Some? ==> id == storage[ResponderIdKey]
    {
      var current := GetCurrentResponder();
      if current.Some? && current.value.responderId != "" then current.value.responderId else "anonymous"
    }

    /**
     * Adds a profile under `freshId` (a random UUID) with `createdAt == updatedAt == now`
     * and makes it the current responder. Adding an id the table already holds
     * fails and changes nothing.
     */
    method SaveResponderProfile(data: ResponderData, freshId: string, now: string) returns (r: Result<ResponderProfile>)
      requires Valid()
      modifies this
      ensures Valid()
      ensures freshId in old(responders) ==>
                r == Err(ConstraintError) && storage == old(storage) && responders == old(responders)
      ensures freshId !in old(responders) ==>
                && r.Ok?
                && r.value == ResponderProfile(freshId, data.name, data.phone, data.email, data.nic, now, now)
                && responders == old(responders)[freshId := r.value]
                && storage == old(storage)[ResponderIdKey := freshId]
      ensures r.Ok? && freshId != "" ==> GetCurrentResponder() == Some(r.value)
    {
      if freshId in responders {
        return Err(ConstraintError);
      }
      var profile := ResponderProfile(freshId, data.name, data.phone, data.email, data.nic, now, now);
      responders := responders[freshId := profile];
      storage := storage[ResponderIdKey := freshId];
      r := Ok(profile);
    }

    /** Patches one profile; an unknown id changes nothing. */
    method UpdateResponderProfile(id: string, patch: ResponderPatch, now: string)
      requires Valid()
      modifies this`responders
      ensures Valid()
      ensures id !in old(responders) ==> responders == old(responders)
      ensures id in old(responders) ==> responders == old(responders)[id := Patched(old(responders)[id], patch, now)]
    {
      if id in responders {
        responders := responders[id := Patched(responders[id], patch, now)];
      }
    }
  }
}
