/** What the admin's requests are answered and what they store, in plain terms. */
module AdminAnswers {
  import opened Types
  import opened Lookup
  import opened World
  import opened Invariants
  import opened Machine
  import opened Text
  import FilingLaws
  import Policies
  import RateLimit
  import Steps
  import Tokens

  // ----- answers -----

  /** An item an admin may store: a capability, an entitlement, and one of the seven modes or none. */
  predicate ItemFits(p: Policy) {
    && TrimSpace(p.capability) != "" && TrimSpace(p.requiredEntitlement) != ""
    && ToLower(TrimSpace(p.mode)) in Policies.MODES + {""}
  }

  /** What each request of an admin is answered. */
  ghost function AnswerTo(w: World, c: Command): Steps.Status {
    match c
    case ActOnLicense(id, _) =>
      if exists l | l in w.data.licenses :: l.id == id then Steps.Ok else Steps.LicenseNotFound
    case ActOnDevice(id, _) => if exists v | v in w.data.devices :: v.id == id then Steps.Ok else Steps.DeviceNotFound
    case ResolveRisk(id) => if exists e | e in w.data.riskEvents :: e.id == id then Steps.Ok else Steps.EventNotFound
    case CreateLicense(req, _) =>
      if req.expiry.Unparsable? then Steps.InvalidExpiry
      else if FilingLaws.Known(w, if req.appId == "" then Steps.DEMO_APP else req.appId) then Steps.Ok
      else Steps.AppNotFound
    case CreateApp(_, appKey, name, _, _) =>
      if appKey == "" || name == "" then Steps.InvalidRequest
      else if FilingLaws.Known(w, appKey) then Steps.AppExists
      else Steps.Ok
    case RotateKey(appId) => if FilingLaws.Known(w, appId) then Steps.Ok else Steps.AppNotFound
    case SeedDefaults(appId) => if FilingLaws.Known(w, appId) then Steps.Ok else Steps.AppNotFound
    case UpsertPolicies(appId, items) =>
      if items == [] then Steps.InvalidRequest
      else if exists p | p in items :: !ItemFits(p) then Steps.InvalidPolicy
      else if FilingLaws.Known(w, appId) then Steps.Ok
      else Steps.AppNotFound
    case CreateRelease(appId, r, validate) =>
      if r.version == "" || r.platform == "" then Steps.InvalidRequest
      else if validate && Steps.MissingFields(r) != [] then Steps.ReleaseIncomplete
      else if FilingLaws.Known(w, appId) then Steps.Ok
      else Steps.AppNotFound
    case PatchRelease(appId, id, p) =>
      if !exists r | r in w.data.releases :: r.appId == appId && r.id == id then Steps.ReleaseNotFound
      else
        var r := w.data.releases[ReleaseById(w.data.releases, appId, id)];
        if p.validate && Steps.MissingFields(Steps.PatchedRelease(r, p)) != [] then Steps.ReleaseIncomplete else Steps.Ok
    case _ => Steps.Ok
  }

  predicate IsAdmins(c: Command) {
    !c.IssueChallenge? && !c.Verify? && !c.Heartbeat? && !c.CapabilityCheck? && !c.Deactivate?
  }

  lemma ItemsFit(p: Policy)
    ensures Policies.NormalizePolicy("", p, 0).Some? <==> ItemFits(p)
  {
    hide TrimSpace, ToLower;
  }

  lemma HolderAnswered(w: World, call: Call)
    requires var c := call.command; c.ActOnLicense? || c.ActOnDevice? || c.ResolveRisk? || c.CreateLicense?
    ensures Step(w, call).1 == Done(AnswerTo(w, call.command))
    ensures AnswerTo(w, call.command) != Steps.Ok ==> Step(w, call).0 == w
  {
    hide Tokens.Normalize, Steps.BlockActivations, Steps.UnbindActivations;
  }

  lemma AppAnswered(w: World, call: Call)
    requires var c := call.command; c.CreateApp? || c.RotateKey? || c.SeedDefaults?
    ensures Step(w, call).1 == Done(AnswerTo(w, call.command))
    ensures AnswerTo(w, call.command) != Steps.Ok ==> Step(w, call).0 == w
  {
    hide Policies.Seed, Policies.VisionFlowDefaults, Steps.IsVisionFlow, Steps.RetireKeys, Steps.FirstRelease, AppNamed;
  }

  lemma ReleaseAnswered(w: World, call: Call)
    requires var c := call.command; c.CreateRelease? || c.PatchRelease? || c.UpdateSettings? || c.SetRateLimit?
    ensures Step(w, call).1 == Done(AnswerTo(w, call.command))
    ensures AnswerTo(w, call.command) != Steps.Ok ==> Step(w, call).0 == w
  {
    hide Steps.MissingFields, Steps.PatchedRelease, Tokens.Normalize, Steps.Patched, AppNamed;
  }

  lemma PoliciesAnswered(w: World, call: Call)
    requires call.command.UpsertPolicies?
    ensures Step(w, call).1 == Done(AnswerTo(w, call.command))
    ensures AnswerTo(w, call.command) != Steps.Ok ==> Step(w, call).0 == w
  {
    hide TrimSpace, ToLower, Policies.NormalizePolicy, Steps.NormalizeAll, Policies.UpsertAll, AppNamed, ItemFits;
    var items := call.command.items;
    FilingLaws.AcceptableNormalizes(call.command.appId, items, call.now);
    forall p | p in items ensures Policies.NormalizePolicy("", p, 0).Some? <==> ItemFits(p) {
      ItemsFit(p);
    }
  }

  /** The answer of every request of an admin; one refused changes nothing. */
  lemma AdminAnswered(w: World, call: Call)
    requires IsAdmins(call.command)
    ensures Step(w, call).1 == Done(AnswerTo(w, call.command))
    ensures AnswerTo(w, call.command) != Steps.Ok ==> Step(w, call).0 == w
  {
    hide Step, AnswerTo;
    match call.command
    case ActOnLicense(_, _) => HolderAnswered(w, call);
    case ActOnDevice(_, _) => HolderAnswered(w, call);
    case ResolveRisk(_) => HolderAnswered(w, call);
    case CreateLicense(_, _) => HolderAnswered(w, call);
    case CreateApp(_, _, _, _, _) => AppAnswered(w, call);
    case RotateKey(_) => AppAnswered(w, call);
    case SeedDefaults(_) => AppAnswered(w, call);
    case UpsertPolicies(_, _) => PoliciesAnswered(w, call);
    case _ => ReleaseAnswered(w, call);
  }

  // ----- what is stored -----

  /** A new licence is as asked for; what is left out comes from the settings of the moment. */
  lemma LicenseStored(w: World, req: Steps.LicenseRequest, key: string, admin: string, now: Time)
    requires Steps.CreateLicense(w, req, key, admin, now).1 == Steps.Ok
    ensures var w' := Steps.CreateLicense(w, req, key, admin, now).0;
            var s := Tokens.Normalize(w.data.settings, now);
            && w'.data.licenses == w.data.licenses + [License(
                 w.nextId, Sha256(key), if req.appId != "" then req.appId else "app_nax_desktop_prod",
                 if req.maxDevices > 0 then req.maxDevices else s.maxDevices,
                 if req.entitlements != [] then req.entitlements else ["feature.pro", "export.enabled"],
                 if req.expiry.On? then req.expiry.at else now + s.licenseDays * DAY, Active, now)]
  {
    hide Tokens.Normalize, AppNamed;
  }

  /** Resolving an event marks it, and it alone, resolved now; one resolved before keeps its time. */
  lemma EventResolved(w: World, id: Id, admin: string, now: Time)
    requires Valid(w) && Steps.ResolveRisk(w, id, admin, now).1 == Steps.Ok
    ensures var a, b := w.data.riskEvents, Steps.ResolveRisk(w, id, admin, now).0.data.riskEvents;
            && |b| == |a|
            && forall k | 0 <= k < |a| ::
                 b[k] == if a[k].id == id && a[k].resolvedAt.None? then a[k].(resolvedAt := Some(now)) else a[k]
  {
    hide Resolutions;
  }

  /** New limits hold from then on, and every count starts over. */
  lemma LimitsStored(w: World, call: Call)
    requires call.command.SetRateLimit?
    ensures Step(w, call).0 == w.(limits := call.command.limits, rates := map[])
  {
  }

  /** Settings that are not numbers are stored as submitted, or kept. */
  lemma FlagsStored(w: World, p: Steps.SettingsPatch, admin: string, now: Time)
    ensures var a, b := w.data.settings, Steps.UpdateSettings(w, p, admin, now).0.data.settings;
            && b.mfaRequired == (if p.mfaRequired.Some? then p.mfaRequired.value else a.mfaRequired)
            && b.confirmSensitive == (if p.confirmSensitive.Some? then p.confirmSensitive.value else a.confirmSensitive)
  {
  }

  /** A row with no more than its name: nothing pinned, nothing required, every client offered it. */
  predicate Plainest(r: Release) {
    && r.mainBinaryHash == r.signerThumbprint == r.packageHash == r.businessManifest == r.resourceManifestHash == ""
    && r.dbSchemaHash == r.dbTablesHash == r.assetsManifest == r.workflowManifest == ""
    && r.downloadUrl == r.minSupportedVersion == "" && !r.mandatory && r.rolloutPercent == 100
  }

  /** A new application is stored active, with a first release on Windows, 1.0.0, where not told otherwise, and a key. */
  lemma AppStored(w: World, id: string, appKey: string, name: string, platform: string, version: string, admin: string,
                  now: Time)
    requires Steps.CreateApp(w, id, appKey, name, platform, version, admin, now).1 == Steps.Ok
    ensures var d, d' := w.data, Steps.CreateApp(w, id, appKey, name, platform, version, admin, now).0.data;
            && d'.apps == d.apps + [App(id, appKey, AppActive)]
            && |d'.releases| == |d.releases| + 1 && d'.releases[..|d.releases|] == d.releases
            && |d'.sdkKeys| == |d.sdkKeys| + 1 && d'.sdkKeys[..|d.sdkKeys|] == d.sdkKeys
            && var r, k := d'.releases[|d.releases|], d'.sdkKeys[|d.sdkKeys|];
               && r.appId == appKey && r.status == "active" && r.buildNumber == 1 && r.createdAt == now && Plainest(r)
               && r.platform == (if platform != "" then platform else "windows")
               && r.version == (if version != "" then version else "1.0.0")
               && k.appId == appKey && k.status == KeyActive && k.createdAt == now && k.rotatedAt.None?
               && r.id != k.id && r.id >= w.nextId && k.id >= w.nextId
  {
    hide Policies.Seed, Policies.VisionFlowDefaults, AppNamed, Steps.IsVisionFlow;
  }

  /** A rotation retires the active keys filed under the name given, marks when, and adds an active one. */
  lemma KeysRotated(w: World, appId: string, admin: string, now: Time)
    requires Steps.RotateKey(w, appId, admin, now).1 == Steps.Ok
    ensures var a, b := w.data.sdkKeys, Steps.RotateKey(w, appId, admin, now).0.data.sdkKeys;
            && |b| == |a| + 1
            && (forall k | 0 <= k < |a| ::
                  b[k] == if a[k].appId == appId && a[k].status == KeyActive
                          then a[k].(status := KeyRotated, rotatedAt := Some(now)) else a[k])
            && b[|a|] == SdkKey(w.nextId, appId, KeyActive, now, Some(now))
  {
    hide AppNamed;
  }

  /** A new application of VisionFlow, told by its key, gets the default policies; any other gets none. */
  lemma AppPolicies(w: World, id: string, appKey: string, name: string, platform: string, version: string, admin: string,
                    now: Time)
    requires Steps.CreateApp(w, id, appKey, name, platform, version, admin, now).1 == Steps.Ok
    ensures Steps.CreateApp(w, id, appKey, name, platform, version, admin, now).0.data.policies
            == if "app_visionflow_" <= ToLower(TrimSpace(appKey))
               then Policies.Seed(w.data.policies, Policies.VisionFlowDefaults(appKey, now))
               else w.data.policies
  {
    hide Policies.Seed, Policies.VisionFlowDefaults, ToLower, TrimSpace, AppNamed;
  }

  // ----- releases -----

  /** A release is stored as submitted, under the name given, active and fully rolled out unless it says otherwise. */
  lemma ReleaseStored(w: World, appId: string, r: Release, validate: bool, admin: string, now: Time)
    requires Steps.CreateRelease(w, appId, r, validate, admin, now).1 == Steps.Ok
    ensures var rows, stored := w.data.releases, Steps.CreateRelease(w, appId, r, validate, admin, now).0.data.releases;
            && |stored| == |rows| + 1 && stored[..|rows|] == rows
            && var s := stored[|rows|];
               && s == r.(id := w.nextId, appId := appId, createdAt := now, status := s.status,
                          rolloutPercent := s.rolloutPercent)
               && s.status == (if r.status == "" then "active" else r.status)
               && (r.rolloutPercent == 0 ==> s.rolloutPercent == 100)
               && (r.rolloutPercent != 0 ==> Tokens.DrawnInto(r.rolloutPercent, 0, 100, s.rolloutPercent))
  {
    hide Steps.MissingFields, AppNamed;
  }

  /** The field as given, or as it was. */
  predicate Changed<T(==)>(given: Option<T>, was: T, now: T) {
    now == if given.Some? then given.value else was
  }

  /** A patch changes the fields it gives of the one row it names, and nothing else of any row. */
  lemma ReleasePatched(w: World, appId: string, id: Id, p: Steps.ReleasePatch, admin: string, now: Time)
    requires Valid(w) && Steps.PatchRelease(w, appId, id, p, admin, now).1 == Steps.Ok
    ensures var a, b := w.data.releases, Steps.PatchRelease(w, appId, id, p, admin, now).0.data.releases;
            && |b| == |a|
            && forall k | 0 <= k < |a| :: if a[k].id == id then RowPatched(a[k], b[k], p) else b[k] == a[k]
  {
    hide Steps.MissingFields, Steps.PatchedRelease;
    OneRow(w);
    hide Valid;
    var a, i := w.data.releases, ReleaseById(w.data.releases, appId, id);
    RowAsPatched(a[i], p);
  }

  lemma OneRow(w: World)
    requires Valid(w)
    ensures forall i, j | 0 <= i < j < |w.data.releases| :: w.data.releases[i].id != w.data.releases[j].id
  {
  }

  ghost predicate RowPatched(a: Release, b: Release, p: Steps.ReleasePatch) {
    && b.id == a.id && b.appId == a.appId && b.platform == a.platform && b.version == a.version
    && b.buildNumber == a.buildNumber && b.createdAt == a.createdAt
    && Changed(p.status, a.status, b.status) && Changed(p.mandatory, a.mandatory, b.mandatory)
    && Changed(p.downloadUrl, a.downloadUrl, b.downloadUrl) && Changed(p.packageHash, a.packageHash, b.packageHash)
    && Changed(p.signerThumbprint, a.signerThumbprint, b.signerThumbprint)
    && Changed(p.mainBinaryHash, a.mainBinaryHash, b.mainBinaryHash)
    && Changed(p.minSupportedVersion, a.minSupportedVersion, b.minSupportedVersion)
    && Changed(p.resourceManifestHash, a.resourceManifestHash, b.resourceManifestHash)
    && Changed(p.businessManifest, a.businessManifest, b.businessManifest)
    && Changed(p.dbSchemaHash, a.dbSchemaHash, b.dbSchemaHash) && Changed(p.dbTablesHash, a.dbTablesHash, b.dbTablesHash)
    && Changed(p.assetsManifest, a.assetsManifest, b.assetsManifest)
    && Changed(p.workflowManifest, a.workflowManifest, b.workflowManifest)
    && (p.rolloutPercent.None? ==> b.rolloutPercent == a.rolloutPercent)
    && (p.rolloutPercent.Some? ==> Tokens.DrawnInto(p.rolloutPercent.value, 0, 100, b.rolloutPercent))
  }

  lemma RowAsPatched(r: Release, p: Steps.ReleasePatch)
    ensures RowPatched(r, Steps.PatchedRelease(r, p), p)
  {
  }

  // ----- the start -----

  /** A server started without stored data has the default settings and nothing else. */
  lemma StartsEmpty(now: Time, limits: RateLimit.Limits)
    ensures var w := Bootstrap(now, limits);
            && w.data.apps == [] && w.data.releases == [] && w.data.sdkKeys == [] && w.data.licenses == []
            && w.data.policies == [] && w.data.devices == [] && w.data.activations == [] && w.data.reports == []
            && w.data.riskEvents == [] && w.data.auditLogs == []
            && w.data.settings == Settings(720, 30, 7, 3, 365, 365, false, false, now)
            && w.challenges == map[] && w.rates == map[] && w.issued == {} && w.limits == limits
  {
  }
}
