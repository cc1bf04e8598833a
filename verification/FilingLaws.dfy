/** Under which of an application's two names, its key or its ID, records are filed, and what depends on it. */
module FilingLaws {
  import opened Types
  import opened Lookup
  import opened World
  import opened Invariants
  import opened Machine
  import opened Frames
  import Challenges
  import IntegrityCheck
  import Policies
  import RateLimit
  import StepInvariants
  import Steps
  import Tokens
  import Verification

  // ----- keys -----

  /** The active SDK keys filed under either name of an application. */
  function ActiveKeysOf(keys: seq<SdkKey>, a: App): set<nat> {
    set k: nat | 0 <= k < |keys| && keys[k].status == KeyActive && keys[k].appId in {a.id, a.appKey} :: k
  }

  /**
   After a rotation the application, by both its names, has exactly one active key if and only if none was filed
   under the name the rotation did not use: a rotation retires only the keys of the name it is given.
   */
  lemma RotationLeavesOneIff(w: World, appId: string, admin: string, now: Time)
    requires Valid(w) && AppNamed(w.data.apps, appId) < |w.data.apps|
    ensures var (w', status) := Steps.RotateKey(w, appId, admin, now);
            var app := w.data.apps[AppNamed(w.data.apps, appId)];
            && status == Steps.Ok
            && (|ActiveKeysOf(w'.data.sdkKeys, app)| == 1
                <==> forall k | k in w.data.sdkKeys && k.status == KeyActive && k.appId in {app.id, app.appKey} ::
                       k.appId == appId)
  {
    hide Valid;
    var w' := Steps.RotateKey(w, appId, admin, now).0;
    var app := w.data.apps[AppNamed(w.data.apps, appId)];
    var keys, keys' := w.data.sdkKeys, w'.data.sdkKeys;
    var active, last := ActiveKeysOf(keys', app), |keys|;
    assert keys'[last].appId == appId && (appId == app.appKey || appId == app.id);
    assert last in active;
    if other :| other in keys && other.status == KeyActive && other.appId in {app.id, app.appKey}
                && other.appId != appId {
      var k :| 0 <= k < |keys| && keys[k] == other;
      assert keys'[k] == other && k in active;
      TwoMembers(active, k, last);
    } else {
      assert forall k | 0 <= k < |keys| :: keys[k] in keys;
      assert active == {last};
    }
  }

  lemma TwoMembers<T>(s: set<T>, a: T, b: T)
    requires a in s && b in s && a != b
    ensures |s| >= 2
  {
    assert s == {a, b} + (s - {a, b});
  }

  // ----- references -----

  /** The names under which licences, policies, SDK keys and releases are filed. */
  ghost function Filed(d: Data): set<string> {
    (set l | l in d.licenses :: l.appId) + (set p | p in d.policies :: p.appId)
    + (set k | k in d.sdkKeys :: k.appId) + (set r | r in d.releases :: r.appId)
  }

  /** The schema's reference of these four tables to application keys. */
  ghost predicate RefsHold(d: Data) {
    forall name | name in Filed(d) :: IsKey(d.apps, name)
  }

  /** Each name in use is a name of a stored application. */
  ghost predicate NamesOk(d: Data) {
    forall name | name in Filed(d) :: AppNamed(d.apps, name) < |d.apps|
  }

  /** The name a call files something under, when it is accepted; a caller can tell beforehand. */
  function Files(w: World, c: Command): Option<string> {
    match c
    case CreateLicense(req, _) =>
      var name := if req.appId == "" then Steps.DEMO_APP else req.appId;
      if !req.expiry.Unparsable? && Known(w, name) then Some(name) else None
    case UpsertPolicies(name, items) =>
      if items != [] && Acceptable(items) && Known(w, name) then Some(name) else None
    case SeedDefaults(name) => if Known(w, name) then Some(name) else None
    case RotateKey(name) => if Known(w, name) then Some(name) else None
    case CreateRelease(name, r, validate) =>
      if r.version != "" && r.platform != "" && !(validate && Steps.MissingFields(r) != []) && Known(w, name)
      then Some(name) else None
    case CreateApp(_, appKey, name, _, _) => if Creates(w, appKey, name) then Some(appKey) else None
    case _ => None
  }

  predicate Known(w: World, name: string) {
    AppNamed(w.data.apps, name) < |w.data.apps|
  }

  predicate Creates(w: World, appKey: string, name: string) {
    appKey != "" && name != "" && !Known(w, appKey)
  }

  /** No item has a blank field or an unknown mode. */
  predicate Acceptable(items: seq<Policy>) {
    forall p | p in items :: Policies.NormalizePolicy("", p, 0).Some?
  }

  /** The call files something under a name that is no application's key, so an ID. */
  ghost predicate FilesById(w: World, c: Command) {
    var name := Files(w, c);
    name.Some? && !c.CreateApp? && !IsKey(w.data.apps, name.value)
  }

  // ----- what each step files -----

  /** A request that touches none of the tables that file something files nothing. */
  lemma NothingFiled(w: World, call: Call)
    requires {AppRows, ReleaseRows, KeyRows, LicenseNames, PolicyRows} !! MayChange(call.command)
    ensures Filed(Step(w, call).0.data) == Filed(w.data) && Step(w, call).0.data.apps == w.data.apps
  {
    hide Step, MayChange;
    StepFrame(w, call);
    SameLicenseNames(w.data.licenses, Step(w, call).0.data.licenses);
  }

  lemma QuietlyFiled(w: World, call: Call)
    requires var c := call.command;
             || c.SetRateLimit? || c.IssueChallenge? || c.Verify? || c.Heartbeat? || c.CapabilityCheck? || c.Deactivate?
             || c.ActOnLicense? || c.ActOnDevice? || c.ResolveRisk? || c.UpdateSettings?
    ensures Filed(Step(w, call).0.data) == Filed(w.data) && Step(w, call).0.data.apps == w.data.apps
  {
    hide Step, Filed;
    NothingFiled(w, call);
  }

  lemma SameLicenseNames(a: seq<License>, b: seq<License>)
    requires SameNames(a, b)
    ensures (set l | l in a :: l.appId) == (set l | l in b :: l.appId)
  {
    var x, y := (set l | l in a :: l.appId), (set l | l in b :: l.appId);
    forall name ensures name in x <==> name in y {
      if name in x {
        var i :| 0 <= i < |a| && a[i].appId == name;
        assert b[i] in b;
      }
      if name in y {
        var i :| 0 <= i < |b| && b[i].appId == name;
        assert a[i] in a;
      }
    }
  }

  // ----- the steps that file something -----

  ghost function ReleaseNames(rs: seq<Release>): set<string> {
    set r | r in rs :: r.appId
  }

  lemma SameReleaseNames(rs: seq<Release>, i: nat, r: Release)
    requires i < |rs| && r.appId == rs[i].appId
    ensures ReleaseNames(rs[i := r]) == ReleaseNames(rs)
  {
    var after := rs[i := r];
    forall name ensures name in ReleaseNames(rs) <==> name in ReleaseNames(after) {
      if name in ReleaseNames(rs) {
        var k :| 0 <= k < |rs| && rs[k].appId == name;
        assert after[k] in after;
      }
      if name in ReleaseNames(after) {
        var k :| 0 <= k < |after| && after[k].appId == name;
        assert rs[k] in rs;
      }
    }
  }

  lemma PatchFiled(w: World, appId: string, id: Id, p: Steps.ReleasePatch, admin: string, now: Time)
    ensures Filed(Steps.PatchRelease(w, appId, id, p, admin, now).0.data) == Filed(w.data)
    ensures Steps.PatchRelease(w, appId, id, p, admin, now).0.data.apps == w.data.apps
  {
    hide Steps.MissingFields, Steps.PatchedRelease;
    var i := ReleaseById(w.data.releases, appId, id);
    if i < |w.data.releases| {
      var r := Steps.PatchedRelease(w.data.releases[i], p);
      PatchKeepsName(w.data.releases[i], p);
      SameReleaseNames(w.data.releases, i, r);
      assert ReleaseNames(w.data.releases) == set x | x in w.data.releases :: x.appId;
    }
  }

  lemma PatchKeepsName(r: Release, p: Steps.ReleasePatch)
    ensures Steps.PatchedRelease(r, p).appId == r.appId && Steps.PatchedRelease(r, p).id == r.id
  {
  }

  lemma LicenseFiled(w: World, req: Steps.LicenseRequest, key: string, admin: string, now: Time)
    requires Files(w, CreateLicense(req, key)).Some?
    ensures var w' := Steps.CreateLicense(w, req, key, admin, now).0;
            w'.data.apps == w.data.apps && Filed(w'.data) == Filed(w.data) + {Files(w, CreateLicense(req, key)).value}
  {
    hide Tokens.Normalize;
  }

  lemma ReleaseFiled(w: World, appId: string, r: Release, validate: bool, admin: string, now: Time)
    requires Files(w, CreateRelease(appId, r, validate)).Some?
    ensures var w' := Steps.CreateRelease(w, appId, r, validate, admin, now).0;
            w'.data.apps == w.data.apps && Filed(w'.data) == Filed(w.data) + {appId}
  {
    hide Steps.MissingFields;
  }

  lemma KeyFiled(w: World, appId: string, admin: string, now: Time)
    requires Known(w, appId)
    ensures var w' := Steps.RotateKey(w, appId, admin, now).0;
            w'.data.apps == w.data.apps && Filed(w'.data) == Filed(w.data) + {appId}
  {
    var w' := Steps.RotateKey(w, appId, admin, now).0;
    var a, b := w.data.sdkKeys, w'.data.sdkKeys;
    var x, y := (set k | k in a :: k.appId), (set k | k in b :: k.appId);
    forall name ensures name in y <==> name in x || name == appId {
      if name in x {
        var i :| 0 <= i < |a| && a[i].appId == name;
        assert b[i] in b;
      }
      if name in y {
        var i :| 0 <= i < |b| && b[i].appId == name;
        assert i < |a| ==> a[i] in a;
      }
      assert b[|a|] in b;
    }
    assert y == x + {appId};
  }

  ghost function PolicyNames(ps: seq<Policy>): set<string> {
    set p | p in ps :: p.appId
  }

  lemma UpsertNames(ps: seq<Policy>, p: Policy)
    ensures PolicyNames(Policies.Upsert(ps, p)) == PolicyNames(ps) + {p.appId}
  {
    hide Policies.Stored;
    Policies.StoredKey(p);
    var r := Policies.Upsert(ps, p);
    forall name ensures name in PolicyNames(r) <==> name in PolicyNames(ps) || name == p.appId {
      if name in PolicyNames(ps) {
        var i :| 0 <= i < |ps| && ps[i].appId == name;
        assert Policies.KeyOf(r[i]) == Policies.KeyOf(ps[i]) && r[i] in r;
      }
      if name in PolicyNames(r) {
        var i :| 0 <= i < |r| && r[i].appId == name;
        assert i < |ps| ==> Policies.KeyOf(r[i]) == Policies.KeyOf(ps[i]) && ps[i] in ps;
      }
      var j := PolicyFor(ps, p.appId, p.capability);
      assert Policies.KeyOf(r[j]) == Policies.KeyOf(p) && r[j] in r;
    }
  }

  lemma {:induction false} UpsertAllNames(ps: seq<Policy>, batch: seq<Policy>, appId: string)
    requires forall p | p in batch :: p.appId == appId
    ensures PolicyNames(Policies.UpsertAll(ps, batch)) == PolicyNames(ps) + (if batch == [] then {} else {appId})
  {
    hide Policies.Upsert;
    if batch != [] {
      var n := |batch| - 1;
      UpsertAllNames(ps, batch[..n], appId);
      UpsertNames(Policies.UpsertAll(ps, batch[..n]), batch[n]);
    }
  }

  lemma SeedNames(ps: seq<Policy>, appId: string, now: Time)
    ensures PolicyNames(Policies.Seed(ps, Policies.VisionFlowDefaults(appId, now))) == PolicyNames(ps) + {appId}
  {
    var wanted := Policies.VisionFlowDefaults(appId, now);
    DefaultNames(appId, now);
    hide Policies.VisionFlowDefaults, Policies.Seed;
    Policies.SeedOnlyAdds(ps, wanted);
    var r := Policies.Seed(ps, wanted);
    assert wanted[0] in wanted;
    var i := PolicyFor(r, appId, wanted[0].capability);
    assert Policies.Has(r, Policies.KeyOf(wanted[0]));
    assert r[i] in r;
    forall name ensures name in PolicyNames(r) <==> name in PolicyNames(ps) || name == appId {
      if name in PolicyNames(ps) {
        var k :| 0 <= k < |ps| && ps[k].appId == name;
        assert r[k] == ps[k] && r[k] in r;
      }
    }
  }

  lemma DefaultNames(appId: string, now: Time)
    ensures Policies.VisionFlowDefaults(appId, now) != []
    ensures forall p | p in Policies.VisionFlowDefaults(appId, now) :: p.appId == appId
  {
  }

  lemma SeedFiled(w: World, appId: string, now: Time)
    ensures var w' := Steps.SeedPolicies(w, appId, now);
            w'.data.apps == w.data.apps && Filed(w'.data) == Filed(w.data) + {appId}
  {
    hide Policies.Seed, Policies.VisionFlowDefaults;
    SeedNames(w.data.policies, appId, now);
  }

  lemma {:induction false} AcceptableNormalizes(appId: string, items: seq<Policy>, now: Time)
    ensures var r := Steps.NormalizeAll(appId, items, now);
            && (r.Some? <==> Acceptable(items))
            && (r.Some? ==> |r.value| == |items| && forall p | p in r.value :: p.appId == appId)
  {
    hide Policies.NormalizePolicy;
    if items != [] {
      var n := |items| - 1;
      AcceptableNormalizes(appId, items[..n], now);
      OneNormalizes(appId, items[n], now);
      assert items == items[..n] + [items[n]];
      assert forall p :: p in items <==> p in items[..n] || p == items[n];
    }
  }

  lemma OneNormalizes(appId: string, p: Policy, now: Time)
    ensures Policies.NormalizePolicy(appId, p, now).Some? <==> Policies.NormalizePolicy("", p, 0).Some?
  {
  }

  lemma UpsertFiled(w: World, appId: string, items: seq<Policy>, admin: string, now: Time)
    ensures var w' := Steps.UpsertPolicies(w, appId, items, admin, now).0;
            && w'.data.apps == w.data.apps
            && Filed(w'.data) == Filed(w.data) + (if Files(w, UpsertPolicies(appId, items)).Some? then {appId} else {})
  {
    hide Acceptable, Policies.UpsertAll, Steps.NormalizeAll;
    AcceptableNormalizes(appId, items, now);
    var batch := Steps.NormalizeAll(appId, items, now);
    if batch.Some? {
      UpsertAllNames(w.data.policies, batch.value, appId);
      assert PolicyNames(w.data.policies) == set p | p in w.data.policies :: p.appId;
    }
  }

  lemma AppFiled(w: World, id: string, appKey: string, name: string, platform: string, version: string, admin: string,
                 now: Time)
    requires Creates(w, appKey, name)
    ensures var w' := Steps.CreateApp(w, id, appKey, name, platform, version, admin, now).0;
            w'.data.apps == w.data.apps + [App(id, appKey, AppActive)] && Filed(w'.data) == Filed(w.data) + {appKey}
  {
    hide Steps.SeedPolicies, Steps.IsVisionFlow;
    var w1 := w.(data := w.data.(apps := w.data.apps + [App(id, appKey, AppActive)]));
    var w2 := AddRelease(w1, Steps.FirstRelease(w1.nextId, appKey, platform, version, now));
    var w3 := AddSdkKey(w2, SdkKey(w2.nextId, appKey, KeyActive, now, None));
    assert Filed(w3.data) == Filed(w.data) + {appKey};
    SeedFiled(w3, appKey, now);
  }

  /** What every step files, and which application it adds. */
  lemma StepFiles(w: World, call: Call)
    ensures var w', name := Step(w, call).0, Files(w, call.command);
            && Filed(w'.data) == Filed(w.data) + (if name.Some? then {name.value} else {})
            && w'.data.apps == w.data.apps
                 + (if call.command.CreateApp? && name.Some? then [App(call.command.id, name.value, AppActive)] else [])
  {
    hide Filed, Acceptable, Steps.CreateLicense, Steps.RotateKey, Steps.CreateApp, Steps.UpsertPolicies,
      Steps.SeedPolicies, Steps.CreateRelease, Steps.PatchRelease, Steps.MissingFields;
    var now, admin := call.now, call.adminId;
    match call.command {
      case CreateLicense(req, key) =>
        if Files(w, call.command).Some? {
          LicenseFiled(w, req, key, admin, now);
        } else {
          RefusedFilesNothing(w, call);
        }
      case RotateKey(appId) =>
        if Known(w, appId) {
          KeyFiled(w, appId, admin, now);
        } else {
          RefusedFilesNothing(w, call);
        }
      case CreateApp(id, appKey, name, platform, version) =>
        if Creates(w, appKey, name) {
          AppFiled(w, id, appKey, name, platform, version, admin, now);
        } else {
          RefusedFilesNothing(w, call);
        }
      case UpsertPolicies(appId, items) => UpsertFiled(w, appId, items, admin, now);
      case SeedDefaults(appId) => SeedDefaultsFiled(w, appId, admin, now);
      case CreateRelease(appId, r, validate) =>
        if Files(w, call.command).Some? {
          ReleaseFiled(w, appId, r, validate, admin, now);
        } else {
          RefusedFilesNothing(w, call);
        }
      case PatchRelease(appId, id, p) => PatchFiled(w, appId, id, p, admin, now);
      case _ => QuietlyFiled(w, call);
    }
    assert w.data.apps + [] == w.data.apps;
  }

  lemma SeedDefaultsFiled(w: World, appId: string, admin: string, now: Time)
    ensures var w' := Steps.SeedDefaults(w, appId, admin, now).0;
            && w'.data.apps == w.data.apps
            && Filed(w'.data) == Filed(w.data) + (if Known(w, appId) then {appId} else {})
  {
    hide Steps.SeedPolicies;
    SeedFiled(w, appId, now);
  }

  lemma RefusedFilesNothing(w: World, call: Call)
    requires var c := call.command;
             c.CreateLicense? || c.RotateKey? || c.CreateApp? || c.CreateRelease?
    requires Files(w, call.command).None?
    ensures Step(w, call).0 == w
  {
    hide Steps.MissingFields, Steps.NewLicense, Steps.RetireKeys;
    if call.command.CreateLicense? {
      NewLicenseName(w, call.command.license, call.command.key, call.now);
    }
  }

  lemma NewLicenseName(w: World, req: Steps.LicenseRequest, key: string, now: Time)
    ensures Steps.NewLicense(w, req, key, now).appId == if req.appId == "" then Steps.DEMO_APP else req.appId
  {
  }

  // ----- when the references hold -----

  lemma NamesStay(w: World, call: Call)
    requires NamesOk(w.data)
    ensures NamesOk(Step(w, call).0.data)
  {
    hide Step, Filed, Files;
    StepFiles(w, call);
    var w', name := Step(w, call).0, Files(w, call.command);
    FilesKnown(w, call.command);
    assert w.data.apps + [] == w.data.apps;
    forall n | n in Filed(w'.data) ensures AppNamed(w'.data.apps, n) < |w'.data.apps| {
      if call.command.CreateApp? && name.Some? {
        NameKept(w.data.apps, App(call.command.id, name.value, AppActive), n);
      }
    }
  }

  lemma FilesKnown(w: World, c: Command)
    ensures var name := Files(w, c);
            name.Some? ==> if c.CreateApp? then !Known(w, name.value) else Known(w, name.value)
  {
    hide Acceptable, Steps.MissingFields;
  }

  /**
   The references of licences, policies, SDK keys and releases to application keys hold after a step if and only if
   they held before and the step files nothing under an application's ID. A reference once broken is never repaired.
   */
  lemma ReferencesIff(w: World, call: Call)
    requires NamesOk(w.data)
    ensures RefsHold(Step(w, call).0.data) <==> RefsHold(w.data) && !FilesById(w, call.command)
  {
    hide Step, Filed, Files, IsKey;
    StepFiles(w, call);
    FilesKnown(w, call.command);
    var w', name := Step(w, call).0, Files(w, call.command);
    assert w.data.apps + [] == w.data.apps;
    if call.command.CreateApp? && name.Some? {
      var a := App(call.command.id, name.value, AppActive);
      forall n | n in Filed(w.data) ensures IsKey(w'.data.apps, n) <==> IsKey(w.data.apps, n) {
        NewKeyOnly(w.data.apps, a, n);
      }
      NewKeyIsKey(w.data.apps, a);
    }
  }

  lemma NewKeyOnly(apps: seq<App>, a: App, name: string)
    requires AppNamed(apps, name) < |apps| && AppNamed(apps, a.appKey) == |apps|
    ensures IsKey(apps + [a], name) <==> IsKey(apps, name)
  {
    assert forall x :: x in apps + [a] <==> x in apps || x == a;
  }

  lemma NewKeyIsKey(apps: seq<App>, a: App)
    ensures IsKey(apps + [a], a.appKey)
  {
    assert (apps + [a])[|apps|] == a;
    assert a in apps + [a];
  }

  /** Over whole runs: the references hold at a state if and only if no earlier call filed anything under an ID. */
  lemma {:induction false} ReferencesInRuns(r: Run, n: nat)
    requires IsRun(r) && n < |r.states| && NamesOk(r.states[0].data) && RefsHold(r.states[0].data)
    ensures NamesOk(r.states[n].data)
    ensures RefsHold(r.states[n].data) <==> forall i | 0 <= i < n :: !FilesById(r.states[i], r.calls[i].command)
  {
    hide Step, NamesOk, RefsHold, FilesById;
    if n > 0 {
      ReferencesInRuns(r, n - 1);
      assert Stepped(r, n - 1);
      NamesStay(r.states[n - 1], r.calls[n - 1]);
      ReferencesIff(r.states[n - 1], r.calls[n - 1]);
    }
  }

  // ----- what clients leave behind -----

  /** Risk events and integrity reports are filed under application keys. */
  ghost predicate LoggedOk(d: Data) {
    && (forall e | e in d.riskEvents :: IsKey(d.apps, e.appId))
    && (forall r | r in d.reports :: IsKey(d.apps, r.appId))
  }

  lemma LoggedSame(w: World, w': World)
    requires LoggedOk(w.data) && w'.data.apps == w.data.apps
    requires w'.data.riskEvents == w.data.riskEvents && w'.data.reports == w.data.reports
    ensures LoggedOk(w'.data)
  {
  }

  lemma RiskLogged(w: World, appId: string, deviceId: Option<Id>, licenseId: Id, eventType: EventType,
                   severity: Severity, action: EventAction, now: Time)
    requires LoggedOk(w.data) && IsKey(w.data.apps, appId)
    ensures LoggedOk(WithRisk(w, appId, deviceId, licenseId, eventType, severity, action, now).data)
  {
    hide IsKey;
  }

  lemma {:induction false} SignalsLogged(w: World, appId: string, deviceId: Id, licenseId: Id,
                                         signals: seq<IntegrityCheck.Signal>, now: Time)
    requires LoggedOk(w.data) && IsKey(w.data.apps, appId)
    ensures var w' := Verification.LogSignals(w, appId, deviceId, licenseId, signals, now);
            LoggedOk(w'.data) && w'.data.apps == w.data.apps
  {
    hide LoggedOk, IsKey;
    if signals != [] {
      var n := |signals| - 1;
      SignalsLogged(w, appId, deviceId, licenseId, signals[..n], now);
      var w1 := Verification.LogSignals(w, appId, deviceId, licenseId, signals[..n], now);
      var s := signals[n];
      RiskLogged(w1, appId, Some(deviceId), licenseId, s.eventType, s.answer.Severity(), s.answer.EventAction(), now);
    }
  }

  lemma ReportLogged(w: World, appId: string, deviceId: Id, releaseId: Option<Id>, platform: string, i: Integrity,
                     now: Time)
    requires LoggedOk(w.data) && IsKey(w.data.apps, appId)
    ensures LoggedOk(WithReport(w, appId, deviceId, releaseId, platform, i, now).data)
  {
    hide IsKey;
  }

  lemma ExamineLogged(w: World, device: nat, appId: string, licenseId: Id, platform: string, i: Integrity, now: Time)
    requires LoggedOk(w.data) && IsKey(w.data.apps, appId) && device < |w.data.devices|
    ensures LoggedOk(Verification.Examine(w, device, appId, licenseId, platform, i, now).data)
  {
    hide LoggedOk, IsKey, Verification.LogSignals, Verification.SignalsOn, Verification.ReportedRelease,
      IntegrityCheck.Assess;
    var v := w.data.devices[device];
    var signals := Verification.SignalsOn(w.data, appId, platform, i);
    var release := Verification.ReportedRelease(w.data, appId, platform, i);
    SignalsLogged(w, appId, v.id, licenseId, signals, now);
    var w1 := Verification.LogSignals(w, appId, v.id, licenseId, signals, now);
    Verification.LogKeepsDevices(w, appId, v.id, licenseId, signals, now);
    var w2 := WithDevice(w1, device, v.(riskScore := IntegrityCheck.Assess(signals).score, lastSeenAt := now));
    LoggedSame(w1, w2);
    ReportLogged(w2, appId, v.id, if release.Some? then Some(release.value.id) else None, platform, i, now);
  }

  lemma BindLogged(w: World, req: Verification.Request, now: Time)
    requires LoggedOk(w.data) && Verification.GateLicense(w.data, w.issued, req, now).Pass?
    ensures LoggedOk(Verification.Bind(w, req, Verification.GateLicense(w.data, w.issued, req, now), now).0.data)
  {
    hide LoggedOk, Verification.GateLicense, Verification.GateDevice, Verification.SeeDevice, Verification.Examine,
      Verification.SignalsOn, IntegrityCheck.Denies, IntegrityCheck.Assess, Keeps;
    var g := Verification.GateLicense(w.data, w.issued, req, now);
    var appKey, l := w.data.apps[g.app].appKey, w.data.licenses[g.license];
    assert w.data.apps[g.app] in w.data.apps;
    StepInvariants.SeeDeviceMeans(w, req, now);
    var (w1, i) := Verification.SeeDevice(w, req, now);
    var v := w1.data.devices[i];
    LoggedSame(w, w1);
    var gate := Verification.GateDevice(w1.data, l, v, g.claims);
    var w' := Verification.Bind(w, req, g, now).0;
    if gate.Turned? {
      RiskLogged(w1, appKey, Some(v.id), l.id, gate.eventType, gate.severity, DenyAction, now);
    } else {
      var w2 := Verification.Activate(w1, gate, l.id, v.id, appKey, now);
      LoggedSame(w1, w2);
      ExamineLogged(w2, i, appKey, l.id, req.platform, req.integrity, now);
      StepInvariants.ExamineKeeps(w2, i, appKey, l.id, req.platform, req.integrity, now);
      var w3 := Verification.Examine(w2, i, appKey, l.id, req.platform, req.integrity, now);
      LoggedSame(w3, w');
    }
  }

  lemma StopLogged(w: World, req: Verification.Request, now: Time)
    requires LoggedOk(w.data) && Verification.GateLicense(w.data, w.issued, req, now).Stop?
    ensures LoggedOk(Verification.AfterStop(w, Verification.GateLicense(w.data, w.issued, req, now), now).data)
  {
    hide LoggedOk, Verification.GateLicense;
    var g := Verification.GateLicense(w.data, w.issued, req, now);
    var w' := Verification.AfterStop(w, g, now);
    if g.code == Verification.AppMismatched {
      assert w.data.apps[g.app] in w.data.apps;
      RiskLogged(w, w.data.apps[g.app].appKey, None, w.data.licenses[g.license].id, TokenAppMismatch, High, DenyAction,
                 now);
    } else {
      LoggedSame(w, w');
    }
  }

  lemma VerifyLogged(w: World, req: Verification.Request, now: Time)
    requires LoggedOk(w.data)
    ensures LoggedOk(Verification.Verify(w, req, now).0.data)
  {
    hide LoggedOk, Verification.GateLicense, Verification.Bind, Verification.AfterStop, RateLimit.IsLimited,
      Verification.ChallengeAccepted;
    var w' := Verification.Verify(w, req, now).0;
    if !RateLimit.IsLimited(w.limits, w.rates, Verification.RateKey(req), now) && !Verification.Blank(req)
       && Verification.ChallengeAccepted(w, req, now) {
      var w1 := w.(challenges := Challenges.Consume(w.challenges, req.challenge.value, now));
      LoggedSame(w, w1);
      if Verification.GateLicense(w1.data, w1.issued, req, now).Stop? {
        StopLogged(w1, req, now);
      } else {
        BindLogged(w1, req, now);
      }
    } else {
      LoggedSame(w, w');
    }
  }

  /** A genuine token names its application by its key. */
  lemma TokenNamesKey(w: World, c: Claims)
    requires Valid(w) && c in w.issued
    ensures IsKey(w.data.apps, c.appId)
  {
    var d := w.data;
    assert Backed(c, d.licenses, d.activations);
    var a := d.activations[ActivationFor(d.activations, c.licenseId, c.deviceId)];
    assert a in d.activations && Refers(a, d.licenses, d.devices);
  }

  lemma HeartbeatLogged(w: World, req: Steps.HeartbeatRequest, now: Time)
    requires LoggedOk(w.data) && IsKey(w.data.apps, req.token.appId)
    ensures LoggedOk(Steps.Heartbeat(w, req, now).0.data)
  {
    hide LoggedOk, IsKey, Steps.Evidence, Steps.WrongInstall, Steps.TokenGate, Steps.ExamineBeat;
    var c := req.token;
    var w1 := Steps.TouchActivation(w, c, now);
    var w2 := Steps.TouchDevice(w1, c.deviceId, now);
    LoggedSame(w, w1);
    LoggedSame(w, w2);
    RiskLogged(w1, c.appId, Some(c.deviceId), c.licenseId, TokenDeviceMismatch, High, DenyAction, now);
    if Steps.Evidence(req).Some? {
      BeatLogged(w2, c, Steps.PlatformOf(w2, req), Steps.Evidence(req).value, now);
    }
  }

  lemma BeatLogged(w: World, c: Claims, platform: string, i: Integrity, now: Time)
    requires LoggedOk(w.data) && IsKey(w.data.apps, c.appId)
    ensures LoggedOk(Steps.ExamineBeat(w, c, platform, i, now).data)
  {
    hide LoggedOk, IsKey, Verification.LogSignals, Verification.SignalsOn, Verification.ReportedRelease,
      IntegrityCheck.Assess;
    var signals := Verification.SignalsOn(w.data, c.appId, platform, i);
    var release := Verification.ReportedRelease(w.data, c.appId, platform, i);
    SignalsLogged(w, c.appId, c.deviceId, c.licenseId, signals, now);
    var w1 := Verification.LogSignals(w, c.appId, c.deviceId, c.licenseId, signals, now);
    var w2 := Steps.ScoreDevice(w1, c.deviceId, IntegrityCheck.Assess(signals).score);
    LoggedSame(w1, w2);
    ReportLogged(w2, c.appId, c.deviceId, if release.Some? then Some(release.value.id) else None, platform, i, now);
  }

  lemma CheckLogged(w: World, req: Steps.CapabilityRequest, now: Time)
    requires LoggedOk(w.data)
    requires req.token.Some? && req.token.value in w.issued ==> IsKey(w.data.apps, req.token.value.appId)
    ensures LoggedOk(Steps.CapabilityCheck(w, req, now).0.data)
  {
    hide LoggedOk, IsKey, Steps.CapabilityGate, Policies.OnlineDecision;
    if Steps.CapabilityGate(w, req, now) == Steps.Ok {
      StepInvariants.CapabilityGateMeans(w, req, now);
      var c := req.token.value;
      var l := w.data.licenses[LicenseById(w.data.licenses, c.licenseId)];
      var d := Policies.OnlineDecision(w.data.policies, c.appId, l.entitlements, req.capability);
      RiskLogged(w, c.appId, Some(c.deviceId), c.licenseId, CapabilityDenied, Steps.DenialSeverity(d.effectiveMode),
                 ModeAction(d.effectiveMode), now);
    }
  }

  lemma DeactivateLogged(w: World, req: Steps.DeactivateRequest, now: Time)
    requires LoggedOk(w.data) && (req.token in w.issued ==> IsKey(w.data.apps, req.token.appId))
    ensures LoggedOk(Steps.Deactivate(w, req, now).0.data)
  {
    hide LoggedOk, IsKey, Steps.WrongInstall;
    var c, w' := req.token, Steps.Deactivate(w, req, now).0;
    if Steps.TokenGate(w, req.appId, c, now) == Steps.Ok && Steps.WrongInstall(w.data, c, req.installId) {
      RiskLogged(w, c.appId, Some(c.deviceId), c.licenseId, TokenDeviceMismatch, High, DenyAction, now);
    } else {
      LoggedSame(w, w');
    }
  }

  lemma ResolveLogged(w: World, id: Id, admin: string, now: Time)
    requires LoggedOk(w.data)
    ensures LoggedOk(Steps.ResolveRisk(w, id, admin, now).0.data)
  {
    hide IsKey;
    var a, b := w.data.riskEvents, Steps.ResolveRisk(w, id, admin, now).0.data.riskEvents;
    forall e | e in b ensures IsKey(w.data.apps, e.appId) {
      var i :| 0 <= i < |b| && b[i] == e;
      assert a[i] in a && a[i].appId == e.appId;
    }
  }

  /** Every step keeps risk events and reports filed under application keys. */
  lemma LoggedStays(w: World, call: Call)
    requires Valid(w) && LoggedOk(w.data)
    ensures LoggedOk(Step(w, call).0.data)
  {
    hide Valid, LoggedOk, IsKey, Filed, Files, Verification.Verify, Steps.Heartbeat, Steps.CapabilityCheck,
      Steps.Deactivate, Steps.ResolveRisk;
    var now, w' := call.now, Step(w, call).0;
    match call.command {
      case Verify(req) => VerifyLogged(w, req, now);
      case Heartbeat(req) =>
        if req.token in w.issued {
          TokenNamesKey(w, req.token);
          HeartbeatLogged(w, req, now);
        } else {
          ForgedBeat(w, req, now);
        }
      case CapabilityCheck(req) =>
        if req.token.Some? && req.token.value in w.issued {
          TokenNamesKey(w, req.token.value);
        }
        CheckLogged(w, req, now);
      case Deactivate(req) =>
        if req.token in w.issued {
          TokenNamesKey(w, req.token);
        }
        DeactivateLogged(w, req, now);
      case ResolveRisk(id) => ResolveLogged(w, id, call.adminId, now);
      case _ =>
        NothingLogged(w, call);
    }
  }

  lemma ForgedBeat(w: World, req: Steps.HeartbeatRequest, now: Time)
    requires req.token !in w.issued
    ensures Steps.Heartbeat(w, req, now).0 == w
  {
  }

  lemma NothingLogged(w: World, call: Call)
    requires LoggedOk(w.data) && EventRows !in MayChange(call.command) && ReportRows !in MayChange(call.command)
    ensures LoggedOk(Step(w, call).0.data)
  {
    hide Step, Filed, Files, IsKey, MayChange;
    StepFiles(w, call);
    StepFrame(w, call);
    var w', name := Step(w, call).0, Files(w, call.command);
    assert w.data.apps + [] == w.data.apps;
    forall n | IsKey(w.data.apps, n) ensures IsKey(w'.data.apps, n) {
      if call.command.CreateApp? && name.Some? {
        NameKept(w.data.apps, App(call.command.id, name.value, AppActive), n);
      }
    }
  }

  /** In every run from such a state, risk events and integrity reports refer to application keys. */
  lemma {:induction false} LoggedInRuns(r: Run, n: nat)
    requires IsRun(r) && n < |r.states| && Valid(r.states[0]) && LoggedOk(r.states[0].data)
    ensures LoggedOk(r.states[n].data)
  {
    hide Step, Valid, LoggedOk;
    if n > 0 {
      LoggedInRuns(r, n - 1);
      StepInvariants.RunKeeps(r, n - 1, n - 1);
      assert Stepped(r, n - 1);
      LoggedStays(r.states[n - 1], r.calls[n - 1]);
    }
  }

  /** A server started without stored data starts with all of them in order. */
  lemma BootstrapRefs(now: Time, limits: RateLimit.Limits)
    ensures NamesOk(Bootstrap(now, limits).data) && RefsHold(Bootstrap(now, limits).data)
    ensures LoggedOk(Bootstrap(now, limits).data)
  {
  }

  /**
   From there on, in every run: what clients leave behind refers to application keys, and so does all else exactly as
   long as nothing is filed under an ID.
   */
  lemma ReferencesFromStart(r: Run, n: nat, now: Time, limits: RateLimit.Limits)
    requires IsRun(r) && n < |r.states| && r.states[0] == Bootstrap(now, limits)
    ensures RefsHold(r.states[n].data) <==> forall i | 0 <= i < n :: !FilesById(r.states[i], r.calls[i].command)
    ensures LoggedOk(r.states[n].data)
  {
    hide Step, Valid, Bootstrap, NamesOk, RefsHold, LoggedOk, FilesById;
    BootstrapValid(now, limits);
    BootstrapRefs(now, limits);
    ReferencesInRuns(r, n);
    LoggedInRuns(r, n);
  }
}
