/** What an admin's changes are worth to the clients: facts of the steps that create and change settings and records. */
module AdminLaws {
  import opened Types
  import opened Lookup
  import opened World
  import opened Invariants
  import opened Text
  import DecisionLaws
  import FilingLaws
  import Policies
  import Releases
  import StepInvariants
  import Steps
  import Tokens
  import Verification

  // ----- moving a rollout -----

  /** A patch of the rollout percentage alone. */
  function RolloutPatch(percent: int): Steps.ReleasePatch {
    Steps.NO_CHANGE.(rolloutPercent := Some(percent))
  }

  /** Identifiers being unique, the first row of the application is the one row with the identifier. */
  lemma PatchSetsRollout(w: World, appId: string, id: Id, percent: int, admin: string, now: Time)
    requires Valid(w) && Steps.PatchRelease(w, appId, id, RolloutPatch(percent), admin, now).1 == Steps.Ok
    ensures Steps.PatchRelease(w, appId, id, RolloutPatch(percent), admin, now).0.data.releases
            == Releases.SetRollout(w.data.releases, id, Releases.ClampPercent(percent))
  {
    hide Releases.SetRollout, Releases.ClampPercent, Steps.MissingFields;
    var rs := w.data.releases;
    var after := Steps.PatchRelease(w, appId, id, RolloutPatch(percent), admin, now).0.data.releases;
    var expected := Releases.SetRollout(rs, id, Releases.ClampPercent(percent));
    var i := ReleaseById(rs, appId, id);
    forall k | 0 <= k < |rs| ensures after[k] == expected[k] {
      Releases.SetAt(rs, id, Releases.ClampPercent(percent), k);
      assert k != i ==> rs[k].id != rs[i].id;
    }
  }

  /** Whatever percentage an admin sets, the same release is selected, and the same clients are below its minimum. */
  lemma SelectionIgnoresPatch(w: World, appId: string, id: Id, percent: int, admin: string, now: Time,
                              app: string, platform: string, current: string, minimum: string)
    requires Valid(w) && Steps.PatchRelease(w, appId, id, RolloutPatch(percent), admin, now).1 == Steps.Ok
    ensures var before, after :=
              w.data.releases, Steps.PatchRelease(w, appId, id, RolloutPatch(percent), admin, now).0.data.releases;
            var a, b := Releases.LatestRelease(before, app, platform), Releases.LatestRelease(after, app, platform);
            && (a.Some? <==> b.Some?)
            && (a.Some? ==> b.value == a.value.(rolloutPercent := b.value.rolloutPercent))
            && Releases.BelowMinimum(after, app, platform, current, minimum)
               == Releases.BelowMinimum(before, app, platform, current, minimum)
  {
    hide Releases.LatestRelease, Releases.BelowMinimum, Steps.PatchRelease, Valid;
    PatchSetsRollout(w, appId, id, percent, admin, now);
    var p := Releases.ClampPercent(percent);
    Releases.SelectionIgnoresRollout(w.data.releases, id, p, app, platform);
    Releases.MinimumIgnoresRollout(w.data.releases, id, p, app, platform, current, minimum);
  }

  /**
   An admin who raises the selected release's percentage withdraws no offer, and a required update stays on offer
   whatever percentage is set.
   */
  lemma PatchNeverWithdraws(w: World, id: Id, percent: int, admin: string, now: Time, app: string, platform: string,
                            current: string, device: Option<Id>, bucketOf: (Id, Id) -> int)
    requires Valid(w) && Releases.UpdateInfo(w.data.releases, app, platform, current, device, bucketOf).Some?
    requires var latest := Releases.LatestRelease(w.data.releases, app, platform); latest.Some? && latest.value.id == id
    ensures var latest := Releases.LatestRelease(w.data.releases, app, platform).value;
            var offer := Releases.UpdateInfo(w.data.releases, app, platform, current, device, bucketOf);
            var (w', status) := Steps.PatchRelease(w, app, id, RolloutPatch(percent), admin, now);
            && status == Steps.Ok
            && (percent >= latest.rolloutPercent || offer.value.required ==>
                  Releases.UpdateInfo(w'.data.releases, app, platform, current, device, bucketOf) == offer)
  {
    hide Releases.LatestRelease, Releases.BelowMinimum, Valid;
    var latest := Releases.LatestRelease(w.data.releases, app, platform).value;
    Releases.LatestIsMaximal(w.data.releases, app, platform);
    var k :| 0 <= k < |w.data.releases| && w.data.releases[k] == latest;
    assert ReleaseById(w.data.releases, app, id) < |w.data.releases|;
    PatchSetsRollout(w, app, id, percent, admin, now);
    Releases.SelectionIgnoresRollout(w.data.releases, id, Releases.ClampPercent(percent), app, platform);
    Releases.MinimumIgnoresRollout(w.data.releases, id, Releases.ClampPercent(percent), app, platform, current,
                                   latest.minSupportedVersion);
  }

  // ----- releases fit for an integrity check -----

  /** Every field an integrity check compares is given. */
  predicate Complete(r: Release) {
    && r.buildNumber > 0
    && TrimSpace(r.mainBinaryHash) != "" && TrimSpace(r.signerThumbprint) != "" && TrimSpace(r.packageHash) != ""
    && TrimSpace(r.businessManifest) != "" && TrimSpace(r.dbSchemaHash) != "" && TrimSpace(r.dbTablesHash) != ""
    && TrimSpace(r.assetsManifest) != "" && TrimSpace(r.workflowManifest) != "" && TrimSpace(r.downloadUrl) != ""
  }

  lemma {:induction false} NoneBlank(fields: seq<(string, string)>)
    ensures Steps.BlankFields(fields) == [] <==> forall k | 0 <= k < |fields| :: TrimSpace(fields[k].1) != ""
  {
    hide TrimSpace;
    if fields != [] {
      var n := |fields| - 1;
      NoneBlank(fields[..n]);
      assert forall k | 0 <= k < n :: fields[..n][k] == fields[k];
    }
  }

  lemma NineFields(r: Release)
    requires r.buildNumber > 0
    ensures (forall k | 0 <= k < |Steps.ComparedFields(r)| :: TrimSpace(Steps.ComparedFields(r)[k].1) != "")
            <==> Complete(r)
  {
    hide TrimSpace;
    var fields := Steps.ComparedFields(r);
    assert |fields| == 9;
    assert fields[0].1 == r.mainBinaryHash && fields[1].1 == r.signerThumbprint && fields[2].1 == r.packageHash;
    assert fields[3].1 == r.businessManifest && fields[4].1 == r.dbSchemaHash && fields[5].1 == r.dbTablesHash;
    assert fields[6].1 == r.assetsManifest && fields[7].1 == r.workflowManifest && fields[8].1 == r.downloadUrl;
  }

  /** Nothing is reported missing exactly when every field is given. */
  lemma NothingMissingIff(r: Release)
    ensures Steps.MissingFields(r) == [] <==> Complete(r)
  {
    hide TrimSpace, Steps.BlankFields, Steps.ComparedFields;
    NoneBlank(Steps.ComparedFields(r));
    if r.buildNumber > 0 {
      NineFields(r);
    }
  }

  const RELEASE_FIELDS: seq<string> := [
    "build_number", "main_binary_hash", "signer_thumbprint", "package_sha256", "business_manifest_sha256",
    "protected_db_schema_hash", "protected_db_tables_hash", "assets_manifest_sha256", "workflow_manifest_sha256",
    "download_url"]

  /** The release does not give the field of this name. */
  predicate Lacks(r: Release, field: string) {
    || (field == "build_number" && r.buildNumber <= 0)
    || (field == "main_binary_hash" && TrimSpace(r.mainBinaryHash) == "")
    || (field == "signer_thumbprint" && TrimSpace(r.signerThumbprint) == "")
    || (field == "package_sha256" && TrimSpace(r.packageHash) == "")
    || (field == "business_manifest_sha256" && TrimSpace(r.businessManifest) == "")
    || (field == "protected_db_schema_hash" && TrimSpace(r.dbSchemaHash) == "")
    || (field == "protected_db_tables_hash" && TrimSpace(r.dbTablesHash) == "")
    || (field == "assets_manifest_sha256" && TrimSpace(r.assetsManifest) == "")
    || (field == "workflow_manifest_sha256" && TrimSpace(r.workflowManifest) == "")
    || (field == "download_url" && TrimSpace(r.downloadUrl) == "")
  }

  lemma {:induction false} BlanksFiltered(fields: seq<(string, string)>, names: seq<string>, q: string -> bool)
    requires |names| == |fields|
    requires forall k | 0 <= k < |names| :: names[k] == fields[k].0 && (q(names[k]) <==> TrimSpace(fields[k].1) == "")
    ensures Steps.BlankFields(fields) == Filter(names, q)
  {
    hide TrimSpace;
    if fields != [] {
      var n := |fields| - 1;
      BlanksFiltered(fields[..n], names[..n], q);
      FilterSnoc(names[..n], names[n], q);
      assert names == names[..n] + [names[n]];
    }
  }

  lemma FieldsLacking(r: Release)
    ensures var fields, names := Steps.ComparedFields(r), RELEASE_FIELDS[1..];
            |names| == |fields| && forall k | 0 <= k < |names| ::
              names[k] == fields[k].0 && (Lacks(r, names[k]) <==> TrimSpace(fields[k].1) == "")
  {
    hide TrimSpace;
  }

  /** What is reported missing: the names of the fields not given, in this order. */
  lemma MissingTells(r: Release)
    ensures Steps.MissingFields(r) == Filter(RELEASE_FIELDS, (x: string) => Lacks(r, x))
  {
    hide TrimSpace, Steps.BlankFields, Steps.ComparedFields;
    FieldsLacking(r);
    BlanksFiltered(Steps.ComparedFields(r), RELEASE_FIELDS[1..], (x: string) => Lacks(r, x));
  }

  /** With validation asked for, only complete releases are stored, whether created or patched; others change nothing. */
  lemma ValidatedAreComplete(w: World, appId: string, r: Release, id: Id, p: Steps.ReleasePatch, admin: string, now: Time)
    ensures var (w', s) := Steps.CreateRelease(w, appId, r, true, admin, now);
            && (s == Steps.Ok ==> |w'.data.releases| == |w.data.releases| + 1
                                  && Complete(w'.data.releases[|w.data.releases|]))
            && (s == Steps.ReleaseIncomplete <==> r.version != "" && r.platform != "" && !Complete(r))
            && (s != Steps.Ok ==> w' == w)
    ensures var (w', s) := Steps.PatchRelease(w, appId, id, p, admin, now);
            var i := ReleaseById(w.data.releases, appId, id);
            && (p.validate && s == Steps.Ok ==> i < |w'.data.releases| && Complete(w'.data.releases[i]))
            && (s == Steps.ReleaseIncomplete
                <==> p.validate && i < |w.data.releases| && !Complete(Steps.PatchedRelease(w.data.releases[i], p)))
            && (s != Steps.Ok ==> w' == w)
  {
    hide TrimSpace, Steps.MissingFields, AppNamed, ReleaseById;
    NothingMissingIff(r);
    var i := ReleaseById(w.data.releases, appId, id);
    if i < |w.data.releases| {
      NothingMissingIff(Steps.PatchedRelease(w.data.releases[i], p));
    }
  }

  // ----- applications -----

  /**
   A new application is found by its key, has exactly one active SDK key filed under it, and its first release is
   the latest of its platform.
   */
  lemma AppReady(w: World, id: string, appKey: string, name: string, platform: string, version: string, admin: string,
                 now: Time)
    requires Valid(w) && FilingLaws.Creates(w, appKey, name)
    ensures var (w', status) := Steps.CreateApp(w, id, appKey, name, platform, version, admin, now);
            var first := Steps.FirstRelease(w.nextId, appKey, platform, version, now);
            && status == Steps.Ok
            && AppNamed(w'.data.apps, appKey) == |w.data.apps| && w'.data.apps[|w.data.apps|].appKey == appKey
            && |w'.data.sdkKeys| == |w.data.sdkKeys| + 1
            && (forall k | 0 <= k <= |w.data.sdkKeys| ::
                  w'.data.sdkKeys[k].appId == appKey <==> k == |w.data.sdkKeys|)
            && w'.data.sdkKeys[|w.data.sdkKeys|].status == KeyActive
            && Releases.LatestRelease(w'.data.releases, appKey, first.platform) == Some(first)
  {
    hide Valid, Steps.SeedPolicies, Steps.IsVisionFlow, Releases.LatestRelease, FilingLaws.Filed;
    var first := Steps.FirstRelease(w.nextId, appKey, platform, version, now);
    var w' := Steps.CreateApp(w, id, appKey, name, platform, version, admin, now).0;
    FilingLaws.AppFiled(w, id, appKey, name, platform, version, admin, now);
    SeedKeepsRest(w, appKey, now);
    StepInvariants.ValidParts(w);
    NewNameIsLast(w.data.apps, App(id, appKey, AppActive));
    LatestOfNew(w.data.releases, first);
    forall k | 0 <= k < |w.data.sdkKeys| ensures w.data.sdkKeys[k].appId != appKey {
      assert w.data.sdkKeys[k] in w.data.sdkKeys;
    }
  }

  lemma SeedKeepsRest(w: World, appId: string, now: Time)
    ensures forall x: World :: Steps.SeedPolicies(x, appId, now).data.releases == x.data.releases
    ensures forall x: World :: Steps.SeedPolicies(x, appId, now).data.sdkKeys == x.data.sdkKeys
    ensures forall x: World :: Steps.SeedPolicies(x, appId, now).data.apps == x.data.apps
  {
  }

  lemma NewNameIsLast(apps: seq<App>, a: App)
    requires AppNamed(apps, a.appKey) == |apps|
    ensures AppNamed(apps + [a], a.appKey) == |apps|
  {
    assert (apps + [a])[|apps|] == a;
  }

  /** The only release filed under its name is the latest there. */
  lemma LatestOfNew(rs: seq<Release>, r: Release)
    requires forall x | x in rs :: x.appId != r.appId
    requires r.status == "active"
    ensures Releases.LatestRelease(rs + [r], r.appId, r.platform) == Some(r)
  {
    var all := rs + [r];
    Releases.LatestIsMaximal(all, r.appId, r.platform);
    assert all[|rs|] == r && r in all;
    assert Releases.Eligible(r, r.appId, r.platform);
  }

  // ----- licences -----

  /**
   A licence as created is good for a request with its key exactly when the application asked for is the active one
   whose key it was filed under, and until it expires: provided the key drawn is new, as drawn keys are.
   */
  lemma LicenseUsableIff(w: World, form: Steps.LicenseRequest, key: string, admin: string, now: Time,
                         req: Verification.Request, at: Time)
    requires Steps.CreateLicense(w, form, key, admin, now).1 == Steps.Ok
    requires LicenseByKey(w.data.licenses, key) == |w.data.licenses| && key != "" && req.licenseKey == key
    ensures var w' := Steps.CreateLicense(w, form, key, admin, now).0;
            var l, app := Steps.NewLicense(w, form, key, now), AppNamed(w.data.apps, req.appId);
            && DecisionLaws.Presented(w', req) == Some(l)
            && (DecisionLaws.Licensed(w', req, at)
                <==> && app < |w.data.apps| && w.data.apps[app].status == AppActive
                     && l.appId == w.data.apps[app].appKey && at <= l.expiresAt)
  {
    hide Tokens.Normalize;
    var w' := Steps.CreateLicense(w, form, key, admin, now).0;
    var l := Steps.NewLicense(w, form, key, now);
    assert w'.data.licenses[|w.data.licenses|] == l;
    assert LicenseByKey(w'.data.licenses, key) == |w.data.licenses|;
  }

  /** Left to its defaults, a licence is for at least one device and lasts at least a day. */
  lemma LicenseDefaults(w: World, form: Steps.LicenseRequest, key: string, now: Time)
    ensures var l := Steps.NewLicense(w, form, key, now);
            && 1 <= l.maxDevices && (form.maxDevices <= 0 ==> l.maxDevices <= 1000)
            && (!form.expiry.On? ==> now + DAY <= l.expiresAt <= now + 3650 * DAY)
            && l.entitlements != [] && l.status == Active
  {
    hide Tokens.Normalize;
    Tokens.NormalizeIsProjection(w.data.settings, now);
  }

  // ----- settings -----

  /**
   Settings are stored within bounds and read back as stored, at every later reading; a field submitted within
   bounds is stored as submitted, the short token lifetime if it does not exceed the long one.
   */
  lemma SettingsStored(w: World, p: Steps.SettingsPatch, admin: string, now: Time, later: Time)
    requires Tokens.IsReading(now)
    ensures var s := Steps.UpdateSettings(w, p, admin, now).0.data.settings;
            && Tokens.WithinBounds(s) && s.updatedAt == now && Tokens.Normalize(s, later) == s
            && (p.tokenTtlMinutes.Some? && 5 <= p.tokenTtlMinutes.value <= 30 * 24 * 60 ==>
                  s.tokenTtlMinutes == p.tokenTtlMinutes.value)
            && (p.mediumRiskTtlMinutes.Some? && 5 <= p.mediumRiskTtlMinutes.value <= s.tokenTtlMinutes ==>
                  s.mediumRiskTtlMinutes == p.mediumRiskTtlMinutes.value)
            && (p.offlineGraceDays.Some? && 0 <= p.offlineGraceDays.value <= 30 ==>
                  s.offlineGraceDays == p.offlineGraceDays.value)
            && (p.maxDevices.Some? && 1 <= p.maxDevices.value <= 1000 ==> s.maxDevices == p.maxDevices.value)
            && (p.licenseDays.Some? && 1 <= p.licenseDays.value <= 3650 ==> s.licenseDays == p.licenseDays.value)
            && (p.auditDays.Some? && 7 <= p.auditDays.value <= 3650 ==> s.auditDays == p.auditDays.value)
  {
    var patched := Steps.Patched(Tokens.Normalize(w.data.settings, now), p, now);
    Tokens.NormalizeIsProjection(patched, now);
    Tokens.NormalizeIsProjection(Tokens.Normalize(patched, now), later);
  }

  /** What was stored before and is not submitted stays, except that the short lifetime follows the long one down. */
  lemma SettingsKept(w: World, p: Steps.SettingsPatch, admin: string, now: Time)
    requires Tokens.WithinBounds(w.data.settings)
    ensures var before, s := w.data.settings, Steps.UpdateSettings(w, p, admin, now).0.data.settings;
            && (p.tokenTtlMinutes.None? ==> s.tokenTtlMinutes == before.tokenTtlMinutes)
            && (p.mediumRiskTtlMinutes.None? ==>
                  s.mediumRiskTtlMinutes == if before.mediumRiskTtlMinutes <= s.tokenTtlMinutes
                                            then before.mediumRiskTtlMinutes else s.tokenTtlMinutes)
            && (p.offlineGraceDays.None? ==> s.offlineGraceDays == before.offlineGraceDays)
            && (p.maxDevices.None? ==> s.maxDevices == before.maxDevices)
            && (p.licenseDays.None? ==> s.licenseDays == before.licenseDays)
            && (p.auditDays.None? ==> s.auditDays == before.auditDays)
  {
  }

  // ----- default policies -----

  /** Seeding leaves every default capability of the application registered, and every other decision as it was. */
  lemma SeededDecisions(w: World, appId: string, admin: string, now: Time, app: string, capability: string)
    requires FilingLaws.Known(w, appId)
    ensures var (w', status) := Steps.SeedDefaults(w, appId, admin, now);
            var wanted := Policies.VisionFlowDefaults(appId, now);
            var before := Policies.Registered(w.data.policies, app, capability);
            var after := Policies.Registered(w'.data.policies, app, capability);
            && status == Steps.Ok
            && (before.Some? ==> after == before)
            && (before.None? ==> (after.Some? <==> exists p | p in wanted :: Policies.KeyOf(p) == (app, capability)))
            && (before.None? && after.Some? ==> after.value in wanted)
  {
    hide Policies.VisionFlowDefaults, Policies.Seed;
    var wanted := Policies.VisionFlowDefaults(appId, now);
    var ps := w.data.policies;
    var r := Policies.Seed(ps, wanted);
    Policies.SeedOnlyAdds(ps, wanted);
    var i, j := PolicyFor(ps, app, capability), PolicyFor(r, app, capability);
    if i < |ps| {
      assert r[i] == ps[i];
      assert forall k | 0 <= k < i :: r[k] == ps[k];
      assert j == i;
    } else if j < |r| {
      assert forall k | 0 <= k < |ps| :: r[k] == ps[k];
      assert r[j] in r && j >= |ps|;
      SeededAt(ps, wanted, j);
    }
    if p :| p in wanted && Policies.KeyOf(p) == (app, capability) {
      assert Policies.Has(r, Policies.KeyOf(p));
    }
  }

  lemma {:induction false} SeededAt(ps: seq<Policy>, wanted: seq<Policy>, j: nat)
    requires |ps| <= j < |Policies.Seed(ps, wanted)|
    ensures Policies.Seed(ps, wanted)[j] in wanted
  {
    var n := |wanted| - 1;
    if wanted != [] && j < |Policies.Seed(ps, wanted[..n])| {
      SeededAt(ps, wanted[..n], j);
    }
  }
}
