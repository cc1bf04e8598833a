/** The remaining requests, client and admin, as steps over the state. */
module Steps {
  import opened Types
  import opened Lookup
  import opened World
  import opened Text
  import Challenges
  import IntegrityCheck
  import Policies
  import RateLimit
  import Releases
  import Tokens
  import Verification

  datatype Status =
    | Ok | RateLimited | InvalidRequest | InvalidToken | AppMismatch | DeviceMismatch | AppNotFound | AppExists
    | LicenseNotFound | LicenseUnusable | ActivationUnusable | DeviceNotFound | EventNotFound | ReleaseNotFound
    | InvalidPolicy | InvalidExpiry | IntegrityRefused | ReleaseIncomplete

  // ----- challenges -----

  datatype ChallengeRequest = ChallengeRequest(caller: string, appId: string, installId: string, nonce: string)

  function ChallengeKey(req: ChallengeRequest): RateLimit.Key {
    RateLimit.Key(RateLimit.Challenging, req.caller)
  }

  function IssueChallenge(w: World, req: ChallengeRequest, now: Time): (World, Status) {
    var k := ChallengeKey(req);
    var failed := RateLimit.Record(w.limits, w.rates, k, now);
    if RateLimit.IsLimited(w.limits, w.rates, k, now) then (w, RateLimited)
    else if req.appId == "" || req.installId == "" then (w.(rates := failed), InvalidRequest)
    else
      var swept := Challenges.Sweep(w.challenges, now);
      if AppNamed(w.data.apps, req.appId) == |w.data.apps| then
        (w.(challenges := swept, rates := failed, nextId := w.nextId + 1), AppNotFound)
      else
        (w.(challenges := Challenges.Issue(swept, w.nextId, req.nonce, req.appId, req.installId, now),
            rates := RateLimit.Reset(w.rates, k), nextId := w.nextId + 1), Ok)
  }

  // ----- requests that carry a token -----

  /** Signed by this server and not past its own expiry. */
  predicate TokenGood(w: World, c: Claims, now: Time) {
    c in w.issued && Unix(now) <= c.expiresAt
  }

  function TokenGate(w: World, appId: string, c: Claims, now: Time): Status {
    if !TokenGood(w, c, now) then InvalidToken
    else if appId != "" && c.appId != appId then AppMismatch
    else Ok
  }

  /** The device named by the token was installed under another install id than the one presented. */
  predicate WrongInstall(d: Data, c: Claims, installId: string) {
    var i := DeviceById(d.devices, c.deviceId);
    i < |d.devices| && installId != "" && d.devices[i].installHash != Sha256(installId)
  }

  function TouchActivation(w: World, c: Claims, now: Time): World {
    var a := ActivationFor(w.data.activations, c.licenseId, c.deviceId);
    if a == |w.data.activations| then w
    else WithActivations(w, w.data.activations[a := w.data.activations[a].(lastVerifiedAt := now)])
  }

  function TouchDevice(w: World, id: Id, now: Time): World {
    var i := DeviceById(w.data.devices, id);
    if i == |w.data.devices| then w else WithDevice(w, i, w.data.devices[i].(lastSeenAt := now))
  }

  function ScoreDevice(w: World, id: Id, score: int): World {
    var i := DeviceById(w.data.devices, id);
    if i == |w.data.devices| then w else WithDevice(w, i, w.data.devices[i].(riskScore := score))
  }

  datatype HeartbeatRequest = HeartbeatRequest(
    appId: string, platform: string, token: Claims, installId: string, appVersion: string, integrity: Option<Integrity>)

  predicate HasEvidence(i: Integrity) {
    || i.appVersion != "" || i.mainBinaryHash != "" || i.signerThumbprint != "" || i.businessManifest != ""
    || i.manifestSignatureValid.Some? || i.dbSchemaHash != "" || i.dbTablesHash != "" || i.assetsManifest != ""
    || i.workflowManifest != "" || i.businessStatus != "" || |i.businessErrors| > 0 || i.dbStatus != ""
    || |i.dbErrors| > 0 || i.debuggerDetected || |i.suspiciousModules| > 0 || |i.vmIndicators| > 0
  }

  /** The reported platform, else the device's, else Windows. */
  function PlatformOf(w: World, req: HeartbeatRequest): string {
    var i := DeviceById(w.data.devices, req.token.deviceId);
    var p := if req.platform == "" && i < |w.data.devices| then w.data.devices[i].platform else req.platform;
    if p == "" then "windows" else p
  }

  function Evidence(req: HeartbeatRequest): Option<Integrity> {
    if req.integrity.None? then None
    else
      var i := req.integrity.value;
      var filled := if i.appVersion == "" then i.(appVersion := req.appVersion) else i;
      if HasEvidence(filled) then Some(filled) else None
  }

  /** A heartbeat's evidence logged, scored on the device, and filed. */
  function ExamineBeat(w: World, c: Claims, platform: string, i: Integrity, now: Time): World {
    var signals := Verification.SignalsOn(w.data, c.appId, platform, i);
    var release := Verification.ReportedRelease(w.data, c.appId, platform, i);
    var w1 := Verification.LogSignals(w, c.appId, c.deviceId, c.licenseId, signals, now);
    var w2 := ScoreDevice(w1, c.deviceId, IntegrityCheck.Assess(signals).score);
    WithReport(w2, c.appId, c.deviceId, if release.Some? then Some(release.value.id) else None, platform, i, now)
  }

  function Heartbeat(w: World, req: HeartbeatRequest, now: Time): (World, Status) {
    var c := req.token;
    var gate := TokenGate(w, req.appId, c, now);
    if gate != Ok then (w, gate)
    else
      var w1 := TouchActivation(w, c, now);
      if WrongInstall(w1.data, c, req.installId) then
        (WithRisk(w1, c.appId, Some(c.deviceId), c.licenseId, TokenDeviceMismatch, High, DenyAction, now), DeviceMismatch)
      else
        var w2 := TouchDevice(w1, c.deviceId, now);
        match Evidence(req)
        case None => (w2, Ok)
        case Some(i) =>
          var platform := PlatformOf(w2, req);
          (ExamineBeat(w2, c, platform, i, now),
           if IntegrityCheck.Denies(Verification.SignalsOn(w2.data, c.appId, platform, i)) then IntegrityRefused else Ok)
  }

  datatype CapabilityRequest = CapabilityRequest(appId: string, token: Option<Claims>, capability: string)

  function DenialSeverity(mode: string): Severity {
    if mode == "warn" || mode == "watermark" || mode == "degrade" then Low else Medium
  }

  /** Why a capability check is turned away before any decision, or Ok. */
  function CapabilityGate(w: World, req: CapabilityRequest, now: Time): Status {
    if req.token.None? || TrimSpace(req.capability) == "" then InvalidRequest
    else
      var c := req.token.value;
      var gate := TokenGate(w, req.appId, c, now);
      var l, a := LicenseById(w.data.licenses, c.licenseId), ActivationFor(w.data.activations, c.licenseId, c.deviceId);
      if gate != Ok then gate
      else if l == |w.data.licenses| || w.data.licenses[l].appId != c.appId || w.data.licenses[l].status != Active then
        LicenseUnusable
      else if a == |w.data.activations| || w.data.activations[a].status != ActivationActive then ActivationUnusable
      else Ok
  }

  function CapabilityCheck(w: World, req: CapabilityRequest, now: Time): (World, Status, Option<Decision>) {
    var gate := CapabilityGate(w, req, now);
    if gate != Ok then (w, gate, None)
    else
      var c := req.token.value;
      var l := w.data.licenses[LicenseById(w.data.licenses, c.licenseId)];
      var d := Policies.OnlineDecision(w.data.policies, c.appId, l.entitlements, req.capability);
      var w' := if d.allowed then w
                else WithRisk(w, c.appId, Some(c.deviceId), c.licenseId, CapabilityDenied,
                              DenialSeverity(d.effectiveMode), ModeAction(d.effectiveMode), now);
      (w', Ok, Some(d))
  }

  datatype DeactivateRequest = DeactivateRequest(appId: string, token: Claims, installId: string)

  function SwitchOff(w: World, c: Claims, now: Time): World {
    var i := ActivationFor(w.data.activations, c.licenseId, c.deviceId);
    if i == |w.data.activations| || w.data.activations[i].status == Deactivated then w
    else
      var a := w.data.activations[i].(status := Deactivated, lastVerifiedAt := now, deactivatedAt := Some(now));
      WithActivations(w, w.data.activations[i := a])
  }

  function Deactivate(w: World, req: DeactivateRequest, now: Time): (World, Status) {
    var c := req.token;
    var gate := TokenGate(w, req.appId, c, now);
    if gate != Ok then (w, gate)
    else if WrongInstall(w.data, c, req.installId) then
      (WithRisk(w, c.appId, Some(c.deviceId), c.licenseId, TokenDeviceMismatch, High, DenyAction, now), DeviceMismatch)
    else (TouchDevice(SwitchOff(w, c, now), c.deviceId, now), Ok)
  }

  // ----- licences and devices, by an admin -----

  datatype LicenseAction = Revoke | Suspend | Resume

  function StatusAfter(action: LicenseAction): LicenseStatus {
    match action case Revoke => Revoked case Suspend => Suspended case Resume => Active
  }

  function LicenseAudit(action: LicenseAction): AuditAction {
    match action case Revoke => LicenseRevoke case Suspend => LicenseSuspend case Resume => LicenseResume
  }

  function BlockActivations(activations: seq<Activation>, licenseId: Id): (r: seq<Activation>)
    ensures |r| == |activations|
  {
    seq(|activations|, k requires 0 <= k < |activations| =>
      if activations[k].licenseId == licenseId then activations[k].(status := ActivationBlocked) else activations[k])
  }

  function ActOnLicense(w: World, id: Id, action: LicenseAction, adminId: string, now: Time): (World, Status) {
    var i := LicenseById(w.data.licenses, id);
    if i == |w.data.licenses| then (w, LicenseNotFound)
    else
      var w1 := WithLicense(w, i, w.data.licenses[i].(status := StatusAfter(action), updatedAt := now));
      var w2 := if action == Revoke then WithActivations(w1, BlockActivations(w1.data.activations, id)) else w1;
      (WithAudit(w2, adminId, LicenseAudit(action), OnLicense(id), now), Ok)
  }

  datatype Expiry = NotGiven | Unparsable | On(at: Time)

  datatype LicenseRequest = LicenseRequest(appId: string, maxDevices: int, expiry: Expiry, entitlements: seq<string>)

  const DEMO_APP := "app_nax_desktop_prod"

  /** `key` is the licence key drawn for it. */
  function NewLicense(w: World, req: LicenseRequest, key: string, now: Time): License {
    var s := Tokens.Normalize(w.data.settings, now);
    License(
      w.nextId, Sha256(key), if req.appId == "" then DEMO_APP else req.appId,
      if req.maxDevices <= 0 then s.maxDevices else req.maxDevices,
      if req.entitlements == [] then ["feature.pro", "export.enabled"] else req.entitlements,
      if req.expiry.On? then req.expiry.at else now + s.licenseDays * DAY, Active, now)
  }

  function CreateLicense(w: World, req: LicenseRequest, key: string, adminId: string, now: Time): (World, Status) {
    var l := NewLicense(w, req, key, now);
    if req.expiry.Unparsable? then (w, InvalidExpiry)
    else if AppNamed(w.data.apps, l.appId) == |w.data.apps| then (w, AppNotFound)
    else (WithAudit(AddLicense(w, l), adminId, LicenseCreate, OnLicense(l.id), now), Ok)
  }

  datatype DeviceAction = Block | Unblock | Unbind

  function DeviceAudit(action: DeviceAction): AuditAction {
    match action case Block => DeviceBlock case Unblock => DeviceUnblock case Unbind => DeviceUnbind
  }

  function UnbindActivations(activations: seq<Activation>, deviceId: Id, now: Time): (r: seq<Activation>)
    ensures |r| == |activations|
  {
    seq(|activations|, k requires 0 <= k < |activations| =>
      if activations[k].deviceId == deviceId && activations[k].status == ActivationActive
      then activations[k].(status := Deactivated, deactivatedAt := Some(now), lastVerifiedAt := now)
      else activations[k])
  }

  function ActOnDevice(w: World, id: Id, action: DeviceAction, adminId: string, now: Time): (World, Status) {
    var i := DeviceById(w.data.devices, id);
    if i == |w.data.devices| then (w, DeviceNotFound)
    else
      var v := w.data.devices[i].(lastSeenAt := now);
      var v' := match action
        case Block => v.(status := DeviceBlocked)
        case Unblock => v.(status := DeviceActive)
        case Unbind => v;
      var w1 := WithDevice(w, i, v');
      var w2 := if action == Unbind then WithActivations(w1, UnbindActivations(w1.data.activations, id, now)) else w1;
      (WithAudit(w2, adminId, DeviceAudit(action), OnDevice(id), now), Ok)
  }

  // ----- risk events, keys, apps, policies, settings, releases -----

  function ResolveRisk(w: World, id: Id, adminId: string, now: Time): (World, Status) {
    var i := RiskEventById(w.data.riskEvents, id);
    if i == |w.data.riskEvents| then (w, EventNotFound)
    else if w.data.riskEvents[i].resolvedAt.Some? then (w, Ok)
    else (WithAudit(WithResolved(w, i, now), adminId, RiskResolve, OnRiskEvent(id), now), Ok)
  }

  function RetireKeys(keys: seq<SdkKey>, appId: string, now: Time): (r: seq<SdkKey>)
    ensures |r| == |keys|
  {
    seq(|keys|, k requires 0 <= k < |keys| =>
      if keys[k].appId == appId && keys[k].status == KeyActive
      then keys[k].(status := KeyRotated, rotatedAt := Some(now)) else keys[k])
  }

  function RotateKey(w: World, appId: string, adminId: string, now: Time): (World, Status) {
    if AppNamed(w.data.apps, appId) == |w.data.apps| then (w, AppNotFound)
    else
      var w1 := w.(data := w.data.(sdkKeys := RetireKeys(w.data.sdkKeys, appId, now)));
      var w2 := AddSdkKey(w1, SdkKey(w1.nextId, appId, KeyActive, now, Some(now)));
      (WithAudit(w2, adminId, SdkKeyRotate, OnApp(appId), now), Ok)
  }

  predicate IsVisionFlow(appKey: string) {
    "app_visionflow_" <= ToLower(TrimSpace(appKey))
  }

  function SeedPolicies(w: World, appId: string, now: Time): World {
    w.(data := w.data.(policies := Policies.Seed(w.data.policies, Policies.VisionFlowDefaults(appId, now))))
  }

  function FirstRelease(id: Id, appKey: string, platform: string, version: string, now: Time): Release {
    Release(id, appKey, if platform == "" then "windows" else platform, if version == "" then "1.0.0" else version,
            1, "active", "", "", "", "", "", "", "", "", "", "", false, "", 100, now)
  }

  /** `id` is the identifier drawn for the app. */
  function CreateApp(w: World, id: string, appKey: string, name: string, platform: string, version: string,
                     adminId: string, now: Time): (World, Status)
  {
    if appKey == "" || name == "" then (w, InvalidRequest)
    else if AppNamed(w.data.apps, appKey) < |w.data.apps| then (w, AppExists)
    else
      var w1 := w.(data := w.data.(apps := w.data.apps + [App(id, appKey, AppActive)]));
      var w2 := AddRelease(w1, FirstRelease(w1.nextId, appKey, platform, version, now));
      var w3 := AddSdkKey(w2, SdkKey(w2.nextId, appKey, KeyActive, now, None));
      var w4 := if IsVisionFlow(appKey) then SeedPolicies(w3, appKey, now) else w3;
      (WithAudit(w4, adminId, AppCreate, OnApp(appKey), now), Ok)
  }

  function NormalizeAll(appId: string, items: seq<Policy>, now: Time): Option<seq<Policy>> {
    if items == [] then Some([])
    else
      var n := |items| - 1;
      var before, last := NormalizeAll(appId, items[..n], now), Policies.NormalizePolicy(appId, items[n], now);
      if before.None? || last.None? then None else Some(before.value + [last.value])
  }

  function UpsertPolicies(w: World, appId: string, items: seq<Policy>, adminId: string, now: Time): (World, Status) {
    var batch := NormalizeAll(appId, items, now);
    if items == [] then (w, InvalidRequest)
    else if batch.None? then (w, InvalidPolicy)
    else if AppNamed(w.data.apps, appId) == |w.data.apps| then (w, AppNotFound)
    else
      var w1 := w.(data := w.data.(policies := Policies.UpsertAll(w.data.policies, batch.value)));
      (WithAudit(w1, adminId, PolicyUpsert, OnApp(appId), now), Ok)
  }

  function SeedDefaults(w: World, appId: string, adminId: string, now: Time): (World, Status) {
    if AppNamed(w.data.apps, appId) == |w.data.apps| then (w, AppNotFound)
    else (WithAudit(SeedPolicies(w, appId, now), adminId, PolicySeed, OnApp(appId), now), Ok)
  }

  datatype SettingsPatch = SettingsPatch(
    tokenTtlMinutes: Option<int>, mediumRiskTtlMinutes: Option<int>, offlineGraceDays: Option<int>,
    maxDevices: Option<int>, licenseDays: Option<int>, auditDays: Option<int>, mfaRequired: Option<bool>,
    confirmSensitive: Option<bool>)

  function Or<T>(o: Option<T>, d: T): T {
    if o.Some? then o.value else d
  }

  function Patched(s: Settings, p: SettingsPatch, now: Time): Settings {
    Settings(
      Or(p.tokenTtlMinutes, s.tokenTtlMinutes), Or(p.mediumRiskTtlMinutes, s.mediumRiskTtlMinutes),
      Or(p.offlineGraceDays, s.offlineGraceDays), Or(p.maxDevices, s.maxDevices), Or(p.licenseDays, s.licenseDays),
      Or(p.auditDays, s.auditDays), Or(p.mfaRequired, s.mfaRequired), Or(p.confirmSensitive, s.confirmSensitive), now)
  }

  function UpdateSettings(w: World, p: SettingsPatch, adminId: string, now: Time): (World, Status) {
    var s := Tokens.Normalize(Patched(Tokens.Normalize(w.data.settings, now), p, now), now);
    (WithAudit(w.(data := w.data.(settings := s)), adminId, SettingsUpdate, OnSettings, now), Ok)
  }

  /** The fields of a release that are asked for, with their names. */
  function ComparedFields(r: Release): seq<(string, string)> {
    [ ("main_binary_hash", r.mainBinaryHash), ("signer_thumbprint", r.signerThumbprint),
      ("package_sha256", r.packageHash), ("business_manifest_sha256", r.businessManifest),
      ("protected_db_schema_hash", r.dbSchemaHash), ("protected_db_tables_hash", r.dbTablesHash),
      ("assets_manifest_sha256", r.assetsManifest), ("workflow_manifest_sha256", r.workflowManifest),
      ("download_url", r.downloadUrl) ]
  }

  /** The names of the fields an integrity check of this release would miss. */
  function MissingFields(r: Release): seq<string> {
    (if r.buildNumber <= 0 then ["build_number"] else []) + BlankFields(ComparedFields(r))
  }

  function BlankFields(fields: seq<(string, string)>): seq<string> {
    if fields == [] then []
    else
      var n := |fields| - 1;
      BlankFields(fields[..n]) + (if TrimSpace(fields[n].1) == "" then [fields[n].0] else [])
  }

  /** `r` carries the submitted fields; identity, channel defaults and time are the server's. */
  function CreateRelease(w: World, appId: string, r: Release, validate: bool, adminId: string, now: Time): (World, Status)
  {
    if r.version == "" || r.platform == "" then (w, InvalidRequest)
    else if validate && MissingFields(r) != [] then (w, ReleaseIncomplete)
    else if AppNamed(w.data.apps, appId) == |w.data.apps| then (w, AppNotFound)
    else
      var stored := r.(
        id := w.nextId, appId := appId, status := if r.status == "" then "active" else r.status, createdAt := now,
        rolloutPercent := if r.rolloutPercent == 0 then 100 else Releases.ClampPercent(r.rolloutPercent));
      (WithAudit(AddRelease(w, stored), adminId, ReleaseCreate, OnApp(appId), now), Ok)
  }

  datatype ReleasePatch = ReleasePatch(
    status: Option<string>, mandatory: Option<bool>, rolloutPercent: Option<int>, downloadUrl: Option<string>,
    packageHash: Option<string>, signerThumbprint: Option<string>, mainBinaryHash: Option<string>,
    minSupportedVersion: Option<string>, resourceManifestHash: Option<string>, businessManifest: Option<string>,
    dbSchemaHash: Option<string>, dbTablesHash: Option<string>, assetsManifest: Option<string>,
    workflowManifest: Option<string>, validate: bool)

  /** The patch that changes nothing. */
  const NO_CHANGE := ReleasePatch(
    None, None, None, None, None, None, None, None, None, None, None, None, None, None, false)

  function PatchedRelease(r: Release, p: ReleasePatch): Release {
    r.(status := Or(p.status, r.status), mandatory := Or(p.mandatory, r.mandatory),
       rolloutPercent :=
         if p.rolloutPercent.Some? then Releases.ClampPercent(p.rolloutPercent.value) else r.rolloutPercent,
       downloadUrl := Or(p.downloadUrl, r.downloadUrl), packageHash := Or(p.packageHash, r.packageHash),
       signerThumbprint := Or(p.signerThumbprint, r.signerThumbprint),
       mainBinaryHash := Or(p.mainBinaryHash, r.mainBinaryHash),
       minSupportedVersion := Or(p.minSupportedVersion, r.minSupportedVersion),
       resourceManifestHash := Or(p.resourceManifestHash, r.resourceManifestHash),
       businessManifest := Or(p.businessManifest, r.businessManifest),
       dbSchemaHash := Or(p.dbSchemaHash, r.dbSchemaHash), dbTablesHash := Or(p.dbTablesHash, r.dbTablesHash),
       assetsManifest := Or(p.assetsManifest, r.assetsManifest),
       workflowManifest := Or(p.workflowManifest, r.workflowManifest))
  }

  function PatchRelease(w: World, appId: string, id: Id, p: ReleasePatch, adminId: string, now: Time): (World, Status) {
    var i := ReleaseById(w.data.releases, appId, id);
    if i == |w.data.releases| then (w, ReleaseNotFound)
    else
      var updated := PatchedRelease(w.data.releases[i], p);
      if p.validate && MissingFields(updated) != [] then (w, ReleaseIncomplete)
      else
        var w1 := w.(data := w.data.(releases := w.data.releases[i := updated]));
        (WithAudit(w1, adminId, ReleaseUpdate, OnRelease(id), now), Ok)
  }
}
