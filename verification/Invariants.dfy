/** What every reachable state satisfies, and how states may grow; both shown edit by edit. */
module Invariants {
  import opened Types
  import opened Lookup
  import opened World
  import Challenges
  import Policies
  import RateLimit
  import Tokens

  // ----- the invariant, list by list -----

  /** Licence and device identifiers are unique and were drawn; a fingerprint belongs to one device. */
  ghost predicate LicensesOk(ls: seq<License>, next: Id) {
    && (forall i | 0 <= i < |ls| :: ls[i].id < next)
    && (forall i, j | 0 <= i < j < |ls| :: ls[i].id != ls[j].id)
  }

  ghost predicate DevicesOk(ds: seq<Device>, next: Id) {
    && (forall i | 0 <= i < |ds| :: ds[i].id < next)
    && (forall i, j | 0 <= i < j < |ds| :: ds[i].id != ds[j].id && ds[i].fingerprint != ds[j].fingerprint)
  }

  /** At most one activation per licence and device, each of a stored licence, with its app, and of a stored device. */
  ghost predicate ActivationsOk(activations: seq<Activation>, ls: seq<License>, ds: seq<Device>, next: Id) {
    && (forall i | 0 <= i < |activations| :: activations[i].id < next && Refers(activations[i], ls, ds))
    && (forall i, j | 0 <= i < j < |activations| ::
          && activations[i].id != activations[j].id
          && (activations[i].licenseId, activations[i].deviceId) != (activations[j].licenseId, activations[j].deviceId))
  }

  ghost predicate Refers(a: Activation, ls: seq<License>, ds: seq<Device>) {
    var i := LicenseById(ls, a.licenseId);
    i < |ls| && ls[i].appId == a.appId && DeviceById(ds, a.deviceId) < |ds|
  }

  /** How many audit entries record the resolution of an event. */
  function Resolutions(logs: seq<AuditLog>, id: Id): nat {
    if logs == [] then 0
    else
      var last := logs[|logs| - 1];
      Resolutions(logs[..|logs| - 1], id)
      + (if last.action == RiskResolve && last.target == OnRiskEvent(id) then 1 else 0)
  }

  /** An event has exactly one resolution on record if it is resolved, and none if not. */
  ghost predicate EventsOk(events: seq<RiskEvent>, logs: seq<AuditLog>, next: Id) {
    && (forall i | 0 <= i < |events| ::
          events[i].id < next && Resolutions(logs, events[i].id) == if events[i].resolvedAt.Some? then 1 else 0)
    && (forall i, j | 0 <= i < j < |events| :: events[i].id != events[j].id)
    && (forall id: Id | id >= next :: Resolutions(logs, id) == 0)
  }

  ghost predicate LogsOk(logs: seq<AuditLog>, next: Id) {
    && (forall i | 0 <= i < |logs| :: logs[i].id < next)
    && (forall i, j | 0 <= i < j < |logs| :: logs[i].id != logs[j].id)
  }

  ghost predicate PoliciesOk(ps: seq<Policy>) {
    Policies.UniqueKeys(ps) && Policies.TrimmedCapabilities(ps)
  }

  /** A signed token names a stored licence, with its app and entitlements, and a device it was activated on. */
  ghost predicate Backed(c: Claims, ls: seq<License>, activations: seq<Activation>) {
    var i := LicenseById(ls, c.licenseId);
    && i < |ls| && ls[i].appId == c.appId && ls[i].entitlements == c.entitlements
    && ActivationFor(activations, c.licenseId, c.deviceId) < |activations|
  }

  ghost predicate IssuedOk(issued: set<Claims>, ls: seq<License>, activations: seq<Activation>) {
    forall c | c in issued :: Backed(c, ls, activations)
  }

  ghost predicate ChallengesOk(t: Challenges.Table, next: Id) {
    forall id | id in t :: id < next && t[id].expiresAt == t[id].createdAt + Challenges.LIFETIME
  }

  /** Of the SDK keys filed under one name at most one is active; each name is one of a stored application. */
  ghost predicate KeysOk(keys: seq<SdkKey>, apps: seq<App>) {
    && (forall k | k in keys :: AppNamed(apps, k.appId) < |apps|)
    && (forall i, j | 0 <= i < j < |keys| ::
          keys[i].status == KeyActive && keys[j].status == KeyActive ==> keys[i].appId != keys[j].appId)
  }

  ghost predicate IsKey(apps: seq<App>, name: string) {
    exists a | a in apps :: a.appKey == name
  }

  /** No application's key is the key or the identifier of an earlier one. */
  ghost predicate AppsOk(apps: seq<App>) {
    forall i, j | 0 <= i < j < |apps| :: apps[j].appKey != apps[i].id && apps[j].appKey != apps[i].appKey
  }

  /** Activations are filed under the keys of stored applications. */
  ghost predicate FiledOk(activations: seq<Activation>, apps: seq<App>) {
    forall a | a in activations :: IsKey(apps, a.appId)
  }

  /** Release identifiers are unique and were drawn; each release is filed under a name of a stored application. */
  ghost predicate ReleasesOk(rs: seq<Release>, apps: seq<App>, next: Id) {
    && (forall i | 0 <= i < |rs| :: rs[i].id < next && AppNamed(apps, rs[i].appId) < |apps|)
    && (forall i, j | 0 <= i < j < |rs| :: rs[i].id != rs[j].id)
  }

  ghost predicate Valid(w: World) {
    var d := w.data;
    && LicensesOk(d.licenses, w.nextId)
    && DevicesOk(d.devices, w.nextId)
    && ActivationsOk(d.activations, d.licenses, d.devices, w.nextId)
    && EventsOk(d.riskEvents, d.auditLogs, w.nextId)
    && LogsOk(d.auditLogs, w.nextId)
    && PoliciesOk(d.policies)
    && IssuedOk(w.issued, d.licenses, d.activations)
    && ChallengesOk(w.challenges, w.nextId)
    && KeysOk(d.sdkKeys, d.apps)
    && AppsOk(d.apps)
    && FiledOk(d.activations, d.apps)
    && ReleasesOk(d.releases, d.apps, w.nextId)
  }

  /** A server started without stored data. */
  function Bootstrap(now: Time, limits: RateLimit.Limits): World {
    World(Data([], [], [], [], [], [], [], [], [], [], Tokens.DefaultSettings(now)), map[], map[], limits, {}, 0)
  }

  lemma BootstrapValid(now: Time, limits: RateLimit.Limits)
    ensures Valid(Bootstrap(now, limits))
  {
  }

  // ----- growth: nothing recorded is lost or rewritten -----

  /** Only a licence's status and its time of update ever change. */
  ghost predicate LicensesKept(a: seq<License>, b: seq<License>) {
    && |a| <= |b|
    && forall i | 0 <= i < |a| :: b[i] == a[i].(status := b[i].status, updatedAt := b[i].updatedAt)
  }

  ghost predicate DevicesKept(a: seq<Device>, b: seq<Device>) {
    && |a| <= |b|
    && forall i | 0 <= i < |a| ::
         && b[i].id == a[i].id && b[i].fingerprint == a[i].fingerprint && b[i].installHash == a[i].installHash
         && b[i].platform == a[i].platform && b[i].firstSeenAt == a[i].firstSeenAt
  }

  ghost predicate ActivationsKept(a: seq<Activation>, b: seq<Activation>) {
    && |a| <= |b|
    && forall i | 0 <= i < |a| :: SameActivation(a[i], b[i])
  }

  ghost predicate SameActivation(a: Activation, b: Activation) {
    && b.id == a.id && b.licenseId == a.licenseId && b.deviceId == a.deviceId && b.appId == a.appId
    && b.activatedAt == a.activatedAt
  }

  /** An event can only be resolved, once; the time of resolution stays. */
  ghost predicate EventsKept(a: seq<RiskEvent>, b: seq<RiskEvent>) {
    && |a| <= |b|
    && forall i | 0 <= i < |a| :: b[i] == a[i] || (a[i].resolvedAt.None? && b[i] == a[i].(resolvedAt := b[i].resolvedAt))
  }

  ghost predicate Grows(w: World, w': World) {
    var d, d' := w.data, w'.data;
    && LicensesKept(d.licenses, d'.licenses)
    && DevicesKept(d.devices, d'.devices)
    && ActivationsKept(d.activations, d'.activations)
    && EventsKept(d.riskEvents, d'.riskEvents)
    && d.auditLogs <= d'.auditLogs
    && d.reports <= d'.reports
    && d.apps <= d'.apps
    && w.issued <= w'.issued
    && w.nextId <= w'.nextId
  }

  lemma GrowsTransitive(a: World, b: World, c: World)
    requires Grows(a, b) && Grows(b, c)
    ensures Grows(a, c)
  {
  }

  /** The invariant is kept and nothing is lost: what is shown of every edit, and so of every step. */
  ghost predicate Keeps(w: World, w': World) {
    Valid(w) ==> Valid(w') && Grows(w, w')
  }

  lemma KeepsTransitive(a: World, b: World, c: World)
    requires Keeps(a, b) && Keeps(b, c)
    ensures Keeps(a, c)
  {
    hide Valid, Grows;
    if Valid(a) {
      GrowsTransitive(a, b, c);
    }
  }

  // ----- lookups survive growth -----

  lemma LicenseKept(a: seq<License>, b: seq<License>, id: Id)
    requires LicensesKept(a, b) && LicenseById(a, id) < |a|
    ensures LicenseById(b, id) == LicenseById(a, id)
  {
    var i, j := LicenseById(a, id), LicenseById(b, id);
    assert b[i].id == a[i].id;
    assert j < i ==> b[j].id == a[j].id;
  }

  lemma DeviceKept(a: seq<Device>, b: seq<Device>, id: Id)
    requires DevicesKept(a, b) && DeviceById(a, id) < |a|
    ensures DeviceById(b, id) == DeviceById(a, id)
  {
    var i, j := DeviceById(a, id), DeviceById(b, id);
    assert b[i].id == a[i].id;
    assert j < i ==> b[j].id == a[j].id;
  }

  lemma ActivationKept(a: seq<Activation>, b: seq<Activation>, l: Id, d: Id)
    requires ActivationsKept(a, b) && ActivationFor(a, l, d) < |a|
    ensures ActivationFor(b, l, d) == ActivationFor(a, l, d)
  {
    var i, j := ActivationFor(a, l, d), ActivationFor(b, l, d);
    assert SameActivation(a[i], b[i]);
    assert j < i ==> SameActivation(a[j], b[j]);
  }

  /** References and tokens stay good when licences, devices and activations grow. */
  lemma BackingSurvives(w: World, ls: seq<License>, ds: seq<Device>, activations: seq<Activation>, next: Id)
    requires Valid(w) && w.nextId <= next
    requires LicensesKept(w.data.licenses, ls) && DevicesKept(w.data.devices, ds)
    requires ActivationsKept(w.data.activations, activations)
    ensures ActivationsOk(w.data.activations, ls, ds, next)
    ensures IssuedOk(w.issued, ls, activations)
  {
    hide LicensesKept, DevicesKept, ActivationsKept;
    var d := w.data;
    forall i | 0 <= i < |d.activations| ensures Refers(d.activations[i], ls, ds) {
      ReferSurvives(d.activations[i], d.licenses, ls, d.devices, ds);
    }
    forall c | c in w.issued ensures Backed(c, ls, activations) {
      BackedSurvives(c, d.licenses, ls, d.activations, activations);
    }
  }

  lemma ReferSurvives(a: Activation, ls: seq<License>, ls': seq<License>, ds: seq<Device>, ds': seq<Device>)
    requires Refers(a, ls, ds) && LicensesKept(ls, ls') && DevicesKept(ds, ds')
    ensures Refers(a, ls', ds')
  {
    LicenseKept(ls, ls', a.licenseId);
    DeviceKept(ds, ds', a.deviceId);
  }

  lemma BackedSurvives(c: Claims, ls: seq<License>, ls': seq<License>, acts: seq<Activation>, acts': seq<Activation>)
    requires Backed(c, ls, acts) && LicensesKept(ls, ls') && ActivationsKept(acts, acts')
    ensures Backed(c, ls', acts')
  {
    LicenseKept(ls, ls', c.licenseId);
    ActivationKept(acts, acts', c.licenseId, c.deviceId);
  }

  // ----- edit by edit -----

  lemma RiskKeeps(w: World, appId: string, deviceId: Option<Id>, licenseId: Id, eventType: EventType,
                  severity: Severity, action: EventAction, now: Time)
    ensures Keeps(w, WithRisk(w, appId, deviceId, licenseId, eventType, severity, action, now))
  {
    hide ActivationsOk, IssuedOk, PoliciesOk, KeysOk, AppsOk, FiledOk, ReleasesOk;
    var w' := WithRisk(w, appId, deviceId, licenseId, eventType, severity, action, now);
    if Valid(w) {
      NextMonotone(w, w.nextId + 1);
    }
  }

  /** Drawing an identifier disturbs nothing. */
  lemma NextMonotone(w: World, next: Id)
    requires Valid(w) && w.nextId <= next
    ensures ActivationsOk(w.data.activations, w.data.licenses, w.data.devices, next)
    ensures LicensesOk(w.data.licenses, next) && DevicesOk(w.data.devices, next)
    ensures EventsOk(w.data.riskEvents, w.data.auditLogs, next) && LogsOk(w.data.auditLogs, next)
    ensures ChallengesOk(w.challenges, next)
    ensures ReleasesOk(w.data.releases, w.data.apps, next)
  {
    hide Refers, Resolutions, IsKey;
  }

  lemma AuditKeeps(w: World, adminId: string, action: AuditAction, target: AuditTarget, now: Time)
    requires action != RiskResolve
    ensures Keeps(w, WithAudit(w, adminId, action, target, now))
  {
    hide ActivationsOk, IssuedOk, PoliciesOk, KeysOk, AppsOk, FiledOk, ReleasesOk;
    if Valid(w) {
      NextMonotone(w, w.nextId + 1);
      var logs := w.data.auditLogs;
      var a := AuditLog(w.nextId, adminId, action, target, now);
      forall id: Id ensures Resolutions(logs + [a], id) == Resolutions(logs, id) {
        ResolutionsSnoc(logs, a, id);
      }
    }
  }

  lemma ResolutionsSnoc(logs: seq<AuditLog>, a: AuditLog, id: Id)
    ensures Resolutions(logs + [a], id)
            == Resolutions(logs, id) + (if a.action == RiskResolve && a.target == OnRiskEvent(id) then 1 else 0)
  {
    assert (logs + [a])[..|logs|] == logs;
  }

  /** Resolving an open event adds the one entry that records it. */
  lemma ResolveEvents(events: seq<RiskEvent>, logs: seq<AuditLog>, next: Id, i: nat, e: RiskEvent, a: AuditLog)
    requires EventsOk(events, logs, next) && i < |events|
    requires events[i].resolvedAt.None? && e == events[i].(resolvedAt := e.resolvedAt) && e.resolvedAt.Some?
    requires a.action == RiskResolve && a.target == OnRiskEvent(e.id)
    ensures EventsOk(events[i := e], logs + [a], next + 1)
  {
    hide Resolutions;
    forall id: Id ensures Resolutions(logs + [a], id) == Resolutions(logs, id) + (if id == e.id then 1 else 0) {
      ResolutionsSnoc(logs, a, id);
    }
  }

  lemma ResolveKeeps(w: World, i: nat, adminId: string, now: Time)
    requires i < |w.data.riskEvents| && w.data.riskEvents[i].resolvedAt.None?
    ensures Keeps(w, WithAudit(WithResolved(w, i, now), adminId, RiskResolve, OnRiskEvent(w.data.riskEvents[i].id), now))
  {
    hide ActivationsOk, IssuedOk, PoliciesOk, KeysOk, AppsOk, FiledOk, ReleasesOk, EventsOk, LicensesOk, DevicesOk,
      ChallengesOk;
    if Valid(w) {
      NextMonotone(w, w.nextId + 1);
      var e := w.data.riskEvents[i];
      var a := AuditLog(w.nextId, adminId, RiskResolve, OnRiskEvent(e.id), now);
      ResolveEvents(w.data.riskEvents, w.data.auditLogs, w.nextId, i, e.(resolvedAt := Some(now)), a);
    }
  }

  lemma ReportKeeps(w: World, appId: string, deviceId: Id, releaseId: Option<Id>, platform: string,
                    integrity: Integrity, now: Time)
    ensures Keeps(w, WithReport(w, appId, deviceId, releaseId, platform, integrity, now))
  {
    hide ActivationsOk, IssuedOk, PoliciesOk, KeysOk, AppsOk, FiledOk, ReleasesOk, EventsOk, LicensesOk, DevicesOk,
      LogsOk, ChallengesOk;
    if Valid(w) {
      NextMonotone(w, w.nextId + 1);
    }
  }

  lemma LicenseKeeps(w: World, i: nat, l: License)
    requires i < |w.data.licenses|
    requires l == w.data.licenses[i].(status := l.status, updatedAt := l.updatedAt)
    ensures Keeps(w, WithLicense(w, i, l))
  {
    hide ActivationsOk, IssuedOk, PoliciesOk, KeysOk, AppsOk, FiledOk, ReleasesOk, EventsOk, DevicesOk, LogsOk,
      ChallengesOk;
    if Valid(w) {
      var w' := WithLicense(w, i, l);
      BackingSurvives(w, w'.data.licenses, w.data.devices, w.data.activations, w.nextId);
    }
  }

  lemma DeviceKeeps(w: World, i: nat, v: Device)
    requires i < |w.data.devices|
    requires DevicesKept([w.data.devices[i]], [v])
    ensures Keeps(w, WithDevice(w, i, v))
  {
    hide ActivationsOk, IssuedOk, PoliciesOk, KeysOk, AppsOk, FiledOk, ReleasesOk, EventsOk, LicensesOk, LogsOk,
      ChallengesOk;
    assert [w.data.devices[i]][0] == w.data.devices[i] && [v][0] == v;
    if Valid(w) {
      var w' := WithDevice(w, i, v);
      BackingSurvives(w, w.data.licenses, w'.data.devices, w.data.activations, w.nextId);
    }
  }

  lemma ActivationsKeep(w: World, activations: seq<Activation>)
    requires |activations| == |w.data.activations| && ActivationsKept(w.data.activations, activations)
    ensures Keeps(w, WithActivations(w, activations))
  {
    hide IssuedOk, PoliciesOk, KeysOk, AppsOk, FiledOk, ReleasesOk, EventsOk, LicensesOk, DevicesOk, LogsOk,
      ChallengesOk;
    if Valid(w) {
      BackingSurvives(w, w.data.licenses, w.data.devices, activations, w.nextId);
      forall i | 0 <= i < |activations| ensures Refers(activations[i], w.data.licenses, w.data.devices) {
        assert Refers(w.data.activations[i], w.data.licenses, w.data.devices);
        assert SameActivation(w.data.activations[i], activations[i]);
      }
      StillFiled(w.data.activations, activations, w.data.apps);
    }
  }

  lemma StillFiled(a: seq<Activation>, b: seq<Activation>, apps: seq<App>)
    requires FiledOk(a, apps) && ActivationsKept(a, b) && |a| == |b|
    ensures FiledOk(b, apps)
  {
    hide IsKey;
    forall x | x in b ensures IsKey(apps, x.appId) {
      var i :| 0 <= i < |b| && b[i] == x;
      assert a[i] in a && SameActivation(a[i], b[i]);
    }
  }

  lemma AddLicenseKeeps(w: World, l: License)
    requires l.id == w.nextId
    ensures Keeps(w, AddLicense(w, l))
  {
    hide ActivationsOk, IssuedOk, PoliciesOk, KeysOk, AppsOk, FiledOk, ReleasesOk, EventsOk, DevicesOk, LogsOk,
      ChallengesOk;
    if Valid(w) {
      var w' := AddLicense(w, l);
      NextMonotone(w, w.nextId + 1);
      BackingSurvives(w, w'.data.licenses, w.data.devices, w.data.activations, w.nextId + 1);
    }
  }

  lemma AddDeviceKeeps(w: World, v: Device)
    requires v.id == w.nextId && DeviceByFingerprint(w.data.devices, v.fingerprint) == |w.data.devices|
    ensures Keeps(w, AddDevice(w, v))
  {
    hide ActivationsOk, IssuedOk, PoliciesOk, KeysOk, AppsOk, FiledOk, ReleasesOk, EventsOk, LicensesOk, LogsOk,
      ChallengesOk;
    if Valid(w) {
      var w' := AddDevice(w, v);
      NextMonotone(w, w.nextId + 1);
      BackingSurvives(w, w.data.licenses, w'.data.devices, w.data.activations, w.nextId + 1);
    }
  }

  lemma AddActivationKeeps(w: World, a: Activation)
    requires a.id == w.nextId && Refers(a, w.data.licenses, w.data.devices)
    requires ActivationFor(w.data.activations, a.licenseId, a.deviceId) == |w.data.activations|
    requires IsKey(w.data.apps, a.appId)
    ensures Keeps(w, AddActivation(w, a))
  {
    hide Refers, IsKey, IssuedOk, PoliciesOk, KeysOk, AppsOk, ReleasesOk, EventsOk, LicensesOk, DevicesOk, LogsOk,
      ChallengesOk;
    if Valid(w) {
      var w' := AddActivation(w, a);
      NextMonotone(w, w.nextId + 1);
      BackingSurvives(w, w.data.licenses, w.data.devices, w'.data.activations, w.nextId + 1);
    }
  }

  lemma IssueKeeps(w: World, c: Claims)
    requires Backed(c, w.data.licenses, w.data.activations)
    ensures Keeps(w, w.(issued := w.issued + {c}))
  {
    hide Backed, IsKey, Refers, Resolutions;
  }

  lemma ChallengesKeep(w: World, t: Challenges.Table, next: Id)
    requires w.nextId <= next && (Valid(w) ==> ChallengesOk(t, next))
    ensures Keeps(w, w.(challenges := t, nextId := next))
  {
    hide ActivationsOk, IssuedOk, PoliciesOk, KeysOk, AppsOk, FiledOk, ReleasesOk, EventsOk, LicensesOk, DevicesOk,
      LogsOk, ChallengesOk;
    if Valid(w) {
      NextMonotone(w, next);
    }
  }

  lemma PoliciesKeep(w: World, ps: seq<Policy>)
    requires PoliciesOk(w.data.policies) ==> PoliciesOk(ps)
    ensures Keeps(w, w.(data := w.data.(policies := ps)))
  {
    hide ActivationsOk, IssuedOk, PoliciesOk, KeysOk, AppsOk, FiledOk, ReleasesOk, EventsOk, LicensesOk, DevicesOk,
      LogsOk, ChallengesOk;
  }

  lemma KeysKeep(w: World, keys: seq<SdkKey>)
    requires KeysOk(w.data.sdkKeys, w.data.apps) ==> KeysOk(keys, w.data.apps)
    ensures Keeps(w, w.(data := w.data.(sdkKeys := keys)))
  {
    hide ActivationsOk, IssuedOk, PoliciesOk, KeysOk, AppsOk, FiledOk, ReleasesOk, EventsOk, LicensesOk, DevicesOk,
      LogsOk, ChallengesOk;
  }

  /** Names of stored applications stay so when one is added. */
  lemma NameKept(apps: seq<App>, a: App, name: string)
    ensures AppNamed(apps, name) < |apps| ==> AppNamed(apps + [a], name) < |apps| + 1
    ensures IsKey(apps, name) ==> IsKey(apps + [a], name)
    ensures AppNamed(apps + [a], a.appKey) < |apps| + 1
  {
    var i := AppNamed(apps, name);
    var all := apps + [a];
    assert i < |apps| ==> all[i] == apps[i];
    assert all[|apps|] == a;
    assert forall x | x in apps :: x in all;
  }

  lemma AddAppKeeps(w: World, a: App)
    requires AppNamed(w.data.apps, a.appKey) == |w.data.apps|
    ensures Keeps(w, w.(data := w.data.(apps := w.data.apps + [a])))
  {
    hide ActivationsOk, IssuedOk, PoliciesOk, EventsOk, LicensesOk, DevicesOk, LogsOk, ChallengesOk, IsKey;
    if Valid(w) {
      forall name: string
        ensures AppNamed(w.data.apps, name) < |w.data.apps| ==> AppNamed(w.data.apps + [a], name) < |w.data.apps| + 1
        ensures IsKey(w.data.apps, name) ==> IsKey(w.data.apps + [a], name)
      {
        NameKept(w.data.apps, a, name);
      }
    }
  }

  lemma ReleasesKeep(w: World, rs: seq<Release>, next: Id)
    requires w.nextId <= next
    requires ReleasesOk(w.data.releases, w.data.apps, w.nextId) ==> ReleasesOk(rs, w.data.apps, next)
    ensures Keeps(w, w.(data := w.data.(releases := rs), nextId := next))
  {
    hide ActivationsOk, IssuedOk, PoliciesOk, KeysOk, AppsOk, FiledOk, ReleasesOk, EventsOk, LicensesOk, DevicesOk,
      LogsOk, ChallengesOk;
    if Valid(w) {
      NextMonotone(w, next);
    }
  }

  /** Nothing the invariant speaks of is touched: limiter, settings, identifiers drawn. */
  lemma OthersKeep(w: World, w': World)
    requires w'.nextId >= w.nextId && w'.challenges == w.challenges && w'.issued == w.issued
    requires w'.data == w.data.(settings := w'.data.settings)
    ensures Keeps(w, w')
  {
    hide ActivationsOk, IssuedOk, PoliciesOk, KeysOk, AppsOk, FiledOk, ReleasesOk, EventsOk, LicensesOk, DevicesOk,
      LogsOk, ChallengesOk;
    if Valid(w) {
      NextMonotone(w, w'.nextId);
    }
  }
}
