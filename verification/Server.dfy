/** The server itself: one object whose methods carry out the requests in place, each exactly as the machine says. */
module Server {
  import opened Evaluation
  import opened Lookup
  import opened Types
  import opened World
  import Challenges
  import DecisionLaws
  import Diagnostics
  import GrantLaws
  import IntegrityCheck
  import Invariants
  import LimitLaws
  import Machine
  import Policies
  import RateLimit
  import Releases
  import Sorting
  import StepInvariants
  import Steps
  import Text
  import Tokens
  import Verification

  method HasEntitlement(entitlements: seq<string>, required: string) returns (held: bool)
    ensures held == Policies.HasEntitlement(entitlements, required)
  {
    var wanted := Text.TrimSpace(required);
    if wanted == "" {
      return true;
    }
    for i := 0 to |entitlements|
      invariant forall k | 0 <= k < i :: entitlements[k] != wanted
    {
      if entitlements[i] == wanted {
        return true;
      }
    }
    return false;
  }

  /** A submitted field replaces the stored one; one left out does not. */
  method PatchField<T>(submitted: Option<T>, stored: T) returns (r: T)
    ensures r == Steps.Or(submitted, stored)
  {
    r := stored;
    if submitted.Some? {
      r := submitted.value;
    }
  }

  method PatchSettings(s: Settings, p: Steps.SettingsPatch, now: Time) returns (r: Settings)
    ensures r == Steps.Patched(s, p, now)
  {
    hide Steps.Or;
    var tokenTtlMinutes := PatchField(p.tokenTtlMinutes, s.tokenTtlMinutes);
    var mediumRiskTtlMinutes := PatchField(p.mediumRiskTtlMinutes, s.mediumRiskTtlMinutes);
    var offlineGraceDays := PatchField(p.offlineGraceDays, s.offlineGraceDays);
    var maxDevices := PatchField(p.maxDevices, s.maxDevices);
    var licenseDays := PatchField(p.licenseDays, s.licenseDays);
    var auditDays := PatchField(p.auditDays, s.auditDays);
    var mfaRequired := PatchField(p.mfaRequired, s.mfaRequired);
    var confirmSensitive := PatchField(p.confirmSensitive, s.confirmSensitive);
    return Settings(tokenTtlMinutes, mediumRiskTtlMinutes, offlineGraceDays, maxDevices, licenseDays, auditDays,
                    mfaRequired, confirmSensitive, now);
  }

  /** A release as the submitted fields leave it. */
  method PatchFields(r: Release, p: Steps.ReleasePatch) returns (updated: Release)
    ensures updated == Steps.PatchedRelease(r, p)
  {
    hide Steps.Or, Releases.ClampPercent;
    var channel := PatchField(p.status, r.status);
    var mandatory := PatchField(p.mandatory, r.mandatory);
    var rollout := r.rolloutPercent;
    if p.rolloutPercent.Some? {
      rollout := Releases.ClampPercent(p.rolloutPercent.value);
    }
    var downloadUrl := PatchField(p.downloadUrl, r.downloadUrl);
    var packageHash := PatchField(p.packageHash, r.packageHash);
    var signer := PatchField(p.signerThumbprint, r.signerThumbprint);
    var binary := PatchField(p.mainBinaryHash, r.mainBinaryHash);
    var minimum := PatchField(p.minSupportedVersion, r.minSupportedVersion);
    var resources := PatchField(p.resourceManifestHash, r.resourceManifestHash);
    var business := PatchField(p.businessManifest, r.businessManifest);
    var schema := PatchField(p.dbSchemaHash, r.dbSchemaHash);
    var tables := PatchField(p.dbTablesHash, r.dbTablesHash);
    var assets := PatchField(p.assetsManifest, r.assetsManifest);
    var workflows := PatchField(p.workflowManifest, r.workflowManifest);
    return r.(status := channel, mandatory := mandatory, rolloutPercent := rollout, downloadUrl := downloadUrl,
              packageHash := packageHash, signerThumbprint := signer, mainBinaryHash := binary,
              minSupportedVersion := minimum, resourceManifestHash := resources, businessManifest := business,
              dbSchemaHash := schema, dbTablesHash := tables, assetsManifest := assets, workflowManifest := workflows);
  }

  /** The names of the blank fields, in order. */
  method MissingReleaseFields(r: Release) returns (missing: seq<string>)
    ensures missing == Steps.MissingFields(r)
  {
    hide Text.TrimSpace;
    missing := [];
    if r.buildNumber <= 0 {
      missing := missing + ["build_number"];
    }
    var fields := Steps.ComparedFields(r);
    ghost var before := missing;
    for i := 0 to |fields|
      invariant missing == before + Steps.BlankFields(fields[..i])
    {
      assert fields[..i + 1][..i] == fields[..i];
      if Text.TrimSpace(fields[i].1) == "" {
        missing := missing + [fields[i].0];
      } else {
        assert missing + [] == missing;
      }
    }
    assert fields[..|fields|] == fields;
  }

  /** One item that cannot be normalised spoils the batch. */
  lemma {:induction false} NormalizeStops(appId: string, items: seq<Policy>, i: nat, now: Time)
    requires i < |items| && Policies.NormalizePolicy(appId, items[i], now).None?
    ensures Steps.NormalizeAll(appId, items, now).None?
    decreases |items|
  {
    if i < |items| - 1 {
      NormalizeStops(appId, items[..|items| - 1], i, now);
    }
  }

  class Server {
    var data: Data
    var challenges: Challenges.Table
    var rates: RateLimit.Table
    var limits: RateLimit.Limits
    var issued: set<Claims>
    var nextId: Id

    /** The state as a value. */
    function W(): World
      reads this
    {
      World(data, challenges, rates, limits, issued, nextId)
    }

    method NewId() returns (id: Id)
      modifies this`nextId
      ensures id == old(nextId) && nextId == id + 1
    {
      id := nextId;
      nextId := nextId + 1;
    }

    // ----- records -----

    method AddRiskEvent(appId: string, deviceId: Option<Id>, licenseId: Id, eventType: EventType, severity: Severity,
                        action: EventAction, now: Time)
      modifies this
      ensures W() == WithRisk(old(W()), appId, deviceId, licenseId, eventType, severity, action, now)
    {
      var id := NewId();
      var event := RiskEvent(id, appId, deviceId, licenseId, eventType, severity, action, now, None);
      data := data.(riskEvents := data.riskEvents + [event]);
    }

    method Audit(adminId: string, action: AuditAction, target: AuditTarget, now: Time)
      modifies this
      ensures W() == WithAudit(old(W()), adminId, action, target, now)
    {
      var id := NewId();
      data := data.(auditLogs := data.auditLogs + [AuditLog(id, adminId, action, target, now)]);
    }

    method FileReport(appId: string, deviceId: Id, release: Option<Release>, platform: string, integrity: Integrity,
                      now: Time)
      modifies this
      ensures W() == WithReport(old(W()), appId, deviceId, if release.Some? then Some(release.value.id) else None,
                                platform, integrity, now)
    {
      var id := NewId();
      var report := Report(id, appId, deviceId, None, platform, integrity, now);
      if release.Some? {
        report := report.(releaseId := Some(release.value.id));
      }
      data := data.(reports := data.reports + [report]);
    }

    // ----- the failure limiter -----

    method IsRateLimited(k: RateLimit.Key, now: Time) returns (limited: bool)
      ensures limited == RateLimit.IsLimited(limits, rates, k, now)
    {
      if limits.failures <= 0 || limits.window <= 0 {
        return false;
      }
      if k !in rates || now - rates[k].start >= limits.window {
        return false;
      }
      return rates[k].failures >= limits.failures;
    }

    method RecordFailure(k: RateLimit.Key, now: Time)
      modifies this
      ensures W() == old(W()).(rates := RateLimit.Record(old(limits), old(rates), k, now))
    {
      if limits.failures <= 0 || limits.window <= 0 {
        return;
      }
      var state := RateLimit.Window(now, 0);
      if k in rates && now - rates[k].start < limits.window {
        state := rates[k];
      }
      state := state.(failures := state.failures + 1);
      rates := rates[k := state];
    }

    method ResetFailures(k: RateLimit.Key)
      modifies this
      ensures W() == old(W()).(rates := RateLimit.Reset(old(rates), k))
    {
      rates := rates - {k};
    }

    // ----- challenges -----

    method CleanupExpiredChallenges(now: Time) returns (removed: nat)
      modifies this
      ensures W() == old(W()).(challenges := Challenges.Sweep(old(challenges), now))
      ensures removed == |old(challenges)| - |challenges|
    {
      var ids := challenges.Keys;
      removed := 0;
      while ids != {}
        invariant W() == old(W()).(challenges := challenges)
        invariant ids <= challenges.Keys <= old(challenges).Keys
        invariant forall id | id in challenges :: challenges[id] == old(challenges)[id]
        invariant forall id | id in old(challenges) && id !in ids ::
                    id in challenges <==> Challenges.Live(old(challenges)[id], now)
        invariant removed == |old(challenges)| - |challenges|
        decreases ids
      {
        var id :| id in ids;
        ids := ids - {id};
        if now > challenges[id].expiresAt {
          challenges := challenges - {id};
          removed := removed + 1;
        }
      }
    }

    method ValidateChallenge(appId: string, installId: string, id: Id, nonce: string, now: Time)
      returns (v: Challenges.Verdict)
      modifies this
      ensures v == Challenges.Judge(old(challenges), appId, installId, id, nonce, now)
      ensures W() == old(W()).(challenges := Challenges.Consume(old(challenges), id, now))
    {
      if id !in challenges {
        assert challenges - {id} == challenges;
        var _ := CleanupExpiredChallenges(now);
        return Challenges.NotFound;
      }
      var challenge := challenges[id];
      challenges := challenges - {id};
      if now > challenge.expiresAt {
        var _ := CleanupExpiredChallenges(now);
        return Challenges.TooOld;
      }
      var _ := CleanupExpiredChallenges(now);
      if challenge.appId != appId || challenge.installId != installId || challenge.nonce != nonce {
        return Challenges.Mismatch;
      }
      return Challenges.Accepted;
    }

    method IssueChallenge(req: Steps.ChallengeRequest, now: Time) returns (status: Steps.Status)
      modifies this
      ensures (W(), status) == Steps.IssueChallenge(old(W()), req, now)
    {
      hide Challenges.Sweep, RateLimit.Record, RateLimit.Reset, RateLimit.IsLimited, AppNamed;
      var k := Steps.ChallengeKey(req);
      var limited := IsRateLimited(k, now);
      if limited {
        return Steps.RateLimited;
      }
      if req.appId == "" || req.installId == "" {
        RecordFailure(k, now);
        return Steps.InvalidRequest;
      }
      var id := NewId();
      var challenge := Challenge(req.nonce, req.appId, req.installId, now + 5 * MINUTE, now);
      var _ := CleanupExpiredChallenges(now);
      var app := FindApp(req.appId);
      if app == |data.apps| {
        RecordFailure(k, now);
        return Steps.AppNotFound;
      }
      ResetFailures(k);
      challenges := challenges[id := challenge];
      return Steps.Ok;
    }

    // ----- searches -----

    method FindApp(name: string) returns (i: nat)
      ensures i == AppNamed(data.apps, name)
    {
      i := FindFirst(data.apps, (a: App) => a.appKey == name || a.id == name);
    }

    method FindLicenseById(id: Id) returns (i: nat)
      ensures i == LicenseById(data.licenses, id)
    {
      i := FindFirst(data.licenses, (l: License) => l.id == id);
    }

    method FindLicenseByKey(key: string) returns (i: nat)
      ensures i == LicenseByKey(data.licenses, key)
    {
      var hash := Sha256(key);
      i := FindFirst(data.licenses, (l: License) => l.keyHash == hash);
    }

    method FindDeviceById(id: Id) returns (i: nat)
      ensures i == DeviceById(data.devices, id)
    {
      i := FindFirst(data.devices, (d: Device) => d.id == id);
    }

    method FindDeviceByFingerprint(fingerprint: Hash) returns (i: nat)
      ensures i == DeviceByFingerprint(data.devices, fingerprint)
    {
      i := FindFirst(data.devices, (d: Device) => d.fingerprint == fingerprint);
    }

    method FindDeviceByInstall(installHash: Hash) returns (i: nat)
      ensures i == DeviceByInstall(data.devices, installHash)
    {
      i := FindFirst(data.devices, (d: Device) => d.installHash == installHash);
    }

    method FindActivation(licenseId: Id, deviceId: Id) returns (i: nat)
      ensures i == ActivationFor(data.activations, licenseId, deviceId)
    {
      i := FindFirst(data.activations, (a: Activation) => a.licenseId == licenseId && a.deviceId == deviceId);
    }

    method FindRiskEvent(id: Id) returns (i: nat)
      ensures i == RiskEventById(data.riskEvents, id)
    {
      i := FindFirst(data.riskEvents, (e: RiskEvent) => e.id == id);
    }

    method FindPolicy(appId: string, capability: string) returns (i: nat)
      ensures i == PolicyFor(data.policies, appId, capability)
    {
      i := FindFirst(data.policies, (p: Policy) => p.appId == appId && p.capability == capability);
    }

    method FindRelease(appId: string, platform: string, version: string) returns (release: Option<Release>)
      ensures release == Releases.ReleaseAt(data.releases, Releases.FindRelease(data.releases, appId, platform, version))
    {
      var i := Releases.FindReleaseLocked(data.releases, appId, platform, version);
      return if i < |data.releases| then Some(data.releases[i]) else None;
    }

    method ActiveDeviceCount(licenseId: Id) returns (n: nat)
      ensures n == |ActiveDevices(data.activations, licenseId)|
    {
      var seen: set<Id> := {};
      for i := 0 to |data.activations|
        invariant seen == ActiveDevices(data.activations[..i], licenseId)
      {
        var a := data.activations[i];
        assert data.activations[..i + 1] == data.activations[..i] + [a];
        if a.licenseId == licenseId && a.status == ActivationActive {
          seen := seen + {a.deviceId};
        }
      }
      assert data.activations[..|data.activations|] == data.activations;
      return |seen|;
    }

    method LatestActivation(licenseId: Id) returns (latest: Option<nat>)
      ensures latest == Diagnostics.LatestActivation(data.activations, licenseId)
    {
      latest := None;
      for i := 0 to |data.activations|
        invariant latest == Diagnostics.LatestActivation(data.activations[..i], licenseId)
      {
        assert data.activations[..i + 1][..i] == data.activations[..i];
        var a := data.activations[i];
        if a.licenseId == licenseId {
          if latest.None? || a.lastVerifiedAt > data.activations[latest.value].lastVerifiedAt {
            latest := Some(i);
          }
        }
      }
      assert data.activations[..|data.activations|] == data.activations;
    }

    // ----- the integrity evaluation -----

    /** Checks 1 to 4: the release's status, binary hash and signer. */
    method CheckBinary(s: Subject, release: Release, i: Integrity, t0: Tally, ghost before: World) returns (t: Tally)
      requires i.appVersion != "" && Checked(before, W(), s, Some(release), i, 1, t0)
      modifies this
      ensures Checked(before, W(), s, Some(release), i, 5, t)
    {
      hide Checked, WithRisk, IntegrityCheck.CheckAt, Text.EqualFold, IntegrityCheck.Shows, IntegrityCheck.SignalFor,
        IntegrityCheck.ExpectedManifest;
      ReleaseChecks(release, i);
      ReleaseTable(|i.suspiciousModules|);
      t := t0;
      ghost var w, u, r := W(), t, Some(release);
      if release.status == "blocked" {
        t := t.Denied(85);
        AddRiskEvent(s.appId, Some(s.deviceId), s.licenseId, AppVersionBlocked, High, DenyAction, s.now);
      }
      CheckedNext(before, w, W(), s, r, i, 1, u, t);
      w, u := W(), t;
      if release.status == "deprecated" {
        t := t.Noted(35, [IntegrityCheck.ShortenTtl, IntegrityCheck.UpdateRecommended]);
        AddRiskEvent(s.appId, Some(s.deviceId), s.licenseId, AppVersionDeprecated, Medium, ChallengeAction, s.now);
      }
      CheckedNext(before, w, W(), s, r, i, 2, u, t);
      w, u := W(), t;
      if release.mainBinaryHash != "" && i.mainBinaryHash != ""
         && !Text.EqualFold(release.mainBinaryHash, i.mainBinaryHash) {
        t := t.Denied(90);
        AddRiskEvent(s.appId, Some(s.deviceId), s.licenseId, BinaryHashMismatch, High, DenyAction, s.now);
      }
      CheckedNext(before, w, W(), s, r, i, 3, u, t);
      w, u := W(), t;
      if release.signerThumbprint != "" && i.signerThumbprint != ""
         && !Text.EqualFold(release.signerThumbprint, i.signerThumbprint) {
        t := t.Denied(80);
        AddRiskEvent(s.appId, Some(s.deviceId), s.licenseId, SignatureMismatch, High, DenyAction, s.now);
      }
      CheckedNext(before, w, W(), s, r, i, 4, u, t);
    }

    /** Checks 5 to 7: the business manifest and the protected database. */
    method CheckManifests(s: Subject, release: Release, i: Integrity, t0: Tally, ghost before: World) returns (t: Tally)
      requires i.appVersion != "" && Checked(before, W(), s, Some(release), i, 5, t0)
      modifies this
      ensures Checked(before, W(), s, Some(release), i, 8, t)
    {
      hide Checked, WithRisk, IntegrityCheck.CheckAt, Text.EqualFold, IntegrityCheck.Shows, IntegrityCheck.SignalFor,
        IntegrityCheck.ExpectedManifest;
      ReleaseChecks(release, i);
      ManifestTable(|i.suspiciousModules|);
      t := t0;
      ghost var w, u, r := W(), t, Some(release);
      var expected := IntegrityCheck.ExpectedManifest(release);
      if expected != "" && !Text.EqualFold(expected, i.businessManifest) {
        t := t.Denied(90);
        AddRiskEvent(s.appId, Some(s.deviceId), s.licenseId, BusinessManifestMismatch, High, DenyAction, s.now);
      }
      CheckedNext(before, w, W(), s, r, i, 5, u, t);
      w, u := W(), t;
      if release.dbSchemaHash != "" && !Text.EqualFold(release.dbSchemaHash, i.dbSchemaHash) {
        t := t.Denied(85);
        AddRiskEvent(s.appId, Some(s.deviceId), s.licenseId, DbSchemaMismatch, High, DenyAction, s.now);
      }
      CheckedNext(before, w, W(), s, r, i, 6, u, t);
      w, u := W(), t;
      if release.dbTablesHash != "" && !Text.EqualFold(release.dbTablesHash, i.dbTablesHash) {
        t := t.Denied(85);
        AddRiskEvent(s.appId, Some(s.deviceId), s.licenseId, DbTablesMismatch, High, DenyAction, s.now);
      }
      CheckedNext(before, w, W(), s, r, i, 7, u, t);
    }

    /** Checks 8 and 9: the assets and the workflows. */
    method CheckAssets(s: Subject, release: Release, i: Integrity, t0: Tally, ghost before: World) returns (t: Tally)
      requires i.appVersion != "" && Checked(before, W(), s, Some(release), i, 8, t0)
      modifies this
      ensures Checked(before, W(), s, Some(release), i, 10, t)
    {
      hide Checked, WithRisk, IntegrityCheck.CheckAt, Text.EqualFold, IntegrityCheck.Shows, IntegrityCheck.SignalFor,
        IntegrityCheck.ExpectedManifest;
      ReleaseChecks(release, i);
      ManifestTable(|i.suspiciousModules|);
      t := t0;
      ghost var w, u, r := W(), t, Some(release);
      if release.assetsManifest != "" && !Text.EqualFold(release.assetsManifest, i.assetsManifest) {
        t := t.Denied(85);
        AddRiskEvent(s.appId, Some(s.deviceId), s.licenseId, AssetManifestMismatch, High, DenyAction, s.now);
      }
      CheckedNext(before, w, W(), s, r, i, 8, u, t);
      w, u := W(), t;
      if release.workflowManifest != "" && !Text.EqualFold(release.workflowManifest, i.workflowManifest) {
        t := t.Denied(85);
        AddRiskEvent(s.appId, Some(s.deviceId), s.licenseId, WorkflowManifestMismatch, High, DenyAction, s.now);
      }
      CheckedNext(before, w, W(), s, r, i, 9, u, t);
    }

    /** Checks 10 to 12: what the client says of its own integrity. */
    method CheckClaims(s: Subject, ghost r: Option<Release>, i: Integrity, t0: Tally, ghost before: World)
      returns (t: Tally)
      requires Checked(before, W(), s, r, i, 10, t0)
      modifies this
      ensures Checked(before, W(), s, r, i, 13, t)
    {
      hide Checked, WithRisk, IntegrityCheck.CheckAt, Text.TrimSpace, Text.ToLower, IntegrityCheck.Shows,
        IntegrityCheck.SignalFor, IntegrityCheck.DbStatusFailed;
      ReportChecks(r, i);
      ReportTable(|i.suspiciousModules|);
      t := t0;
      ghost var w, u := W(), t;
      if i.manifestSignatureValid.Some? && !i.manifestSignatureValid.value {
        t := t.Denied(90);
        AddRiskEvent(s.appId, Some(s.deviceId), s.licenseId, ManifestSignatureInvalid, High, DenyAction, s.now);
      }
      CheckedNext(before, w, W(), s, r, i, 10, u, t);
      w, u := W(), t;
      if Text.ToLower(Text.TrimSpace(i.businessStatus)) in ["failed", "invalid", "tampered"] {
        t := t.Denied(85);
        AddRiskEvent(s.appId, Some(s.deviceId), s.licenseId, BusinessIntegrityFailed, High, DenyAction, s.now);
      }
      CheckedNext(before, w, W(), s, r, i, 11, u, t);
      w, u := W(), t;
      if IntegrityCheck.DbStatusFailed(i.dbStatus) {
        t := t.Denied(85);
        AddRiskEvent(s.appId, Some(s.deviceId), s.licenseId, DbEncryptionFailed, High, DenyAction, s.now);
      }
      CheckedNext(before, w, W(), s, r, i, 12, u, t);
    }

    /** Checks 13 to 15: the surroundings it runs in. */
    method CheckSurroundings(s: Subject, ghost r: Option<Release>, i: Integrity, t0: Tally, ghost before: World)
      returns (t: Tally)
      requires Checked(before, W(), s, r, i, 13, t0)
      modifies this
      ensures Checked(before, W(), s, r, i, 16, t)
    {
      hide Checked, WithRisk, IntegrityCheck.CheckAt, IntegrityCheck.Shows, IntegrityCheck.SignalFor,
        IntegrityCheck.BusinessStatusFailed, IntegrityCheck.DbStatusFailed;
      ReportChecks(r, i);
      ReportTable(|i.suspiciousModules|);
      t := t0;
      ghost var w, u := W(), t;
      if i.debuggerDetected {
        t := t.Noted(40, [IntegrityCheck.ShortenTtl]);
        AddRiskEvent(s.appId, Some(s.deviceId), s.licenseId, DebuggerDetected, Medium, ChallengeAction, s.now);
      }
      CheckedNext(before, w, W(), s, r, i, 13, u, t);
      w, u := W(), t;
      if |i.suspiciousModules| > 0 {
        t := t.Noted(20 + |i.suspiciousModules| * 8, [IntegrityCheck.Review]);
        AddRiskEvent(s.appId, Some(s.deviceId), s.licenseId, SuspiciousModuleLoaded, Medium, ReviewAction, s.now);
      }
      CheckedNext(before, w, W(), s, r, i, 14, u, t);
      w, u := W(), t;
      if |i.vmIndicators| > 0 {
        t := t.Noted(12, [IntegrityCheck.LogOnly]);
        AddRiskEvent(s.appId, Some(s.deviceId), s.licenseId, VmIndicator, Low, AllowAction, s.now);
      }
      CheckedNext(before, w, W(), s, r, i, 15, u, t);
    }

    /** Checks 0 to 9: the reported version and its release. */
    method CheckVersion(s: Subject, platform: string, i: Integrity) returns (release: Option<Release>, t: Tally)
      modifies this
      ensures release == Verification.ReportedRelease(old(data), s.appId, platform, i)
      ensures Checked(old(W()), W(), s, release, i, 10, t)
    {
      hide Checked, IntegrityCheck.CheckAt, IntegrityCheck.Shows, IntegrityCheck.SignalFor, Releases.FindRelease;
      ghost var before := W();
      release := None;
      t := Tally(10, false, []);
      if i.appVersion != "" {
        release := FindRelease(s.appId, platform, i.appVersion);
      }
      ghost var u := t;
      VersionChecks(release, i);
      NothingChecked(before, s, release, i);
      if i.appVersion != "" && release.None? {
        t := t.Noted(20, [IntegrityCheck.Review]);
        AddRiskEvent(s.appId, Some(s.deviceId), s.licenseId, UnknownAppVersion, Medium, ReviewAction, s.now);
      }
      CheckedNext(before, before, W(), s, release, i, 0, u, t);
      if i.appVersion != "" && release.Some? {
        t := CheckBinary(s, release.value, i, t, before);
        t := CheckManifests(s, release.value, i, t, before);
        t := CheckAssets(s, release.value, i, t, before);
      } else {
        CheckedSkip(before, W(), s, release, i, 1, 10, t);
      }
    }

    method EvaluateIntegrity(appId: string, deviceId: Id, licenseId: Id, platform: string, i: Integrity, now: Time)
      returns (risk: IntegrityCheck.RiskResult, release: Option<Release>, deny: bool)
      modifies this
      ensures release == Verification.ReportedRelease(old(data), appId, platform, i)
      ensures var signals := Verification.SignalsOn(old(data), appId, platform, i);
              && W() == Verification.LogSignals(old(W()), appId, deviceId, licenseId, signals, now)
              && risk == IntegrityCheck.Assess(signals)
              && deny == IntegrityCheck.Denies(signals)
    {
      hide IntegrityCheck.RaisedBy, IntegrityCheck.Points, IntegrityCheck.Tags, IntegrityCheck.Denies,
        IntegrityCheck.Unique, Verification.LogSignals, Verification.ReportedRelease;
      ghost var before := W();
      var s := Subject(appId, deviceId, licenseId, now);
      var t;
      release, t := CheckVersion(s, platform, i);
      t := CheckClaims(s, release, i, t, before);
      t := CheckSurroundings(s, release, i, t, before);

      var score := if t.score > 100 then 100 else t.score;
      var level := Low;
      if score >= 80 {
        level := High;
      } else if score >= 45 {
        level := Medium;
      }
      var actions := t.actions;
      if |actions| == 0 {
        actions := [IntegrityCheck.Allow];
      }
      if level == High && !t.deny {
        actions := actions + [IntegrityCheck.ShortenTtl];
      } else {
        assert actions + [] == actions;
      }
      actions := UniqueActions(actions);
      return IntegrityCheck.RiskResult(level, score, actions), release, t.deny;
    }

    // ----- activation and verification -----

    method FindOrCreateDevice(req: Verification.Request, now: Time) returns (i: nat)
      modifies this
      ensures (W(), i) == Verification.SeeDevice(old(W()), req, now)
    {
      var fingerprint := Sha256(req.fingerprint);
      i := FindDeviceByFingerprint(fingerprint);
      if i < |data.devices| {
        var existing := data.devices[i].(
          osVersion := req.osVersion, machineName := Sha256(req.machineName), lastSeenAt := now);
        data := data.(devices := data.devices[i := existing]);
        return;
      }
      var id := NewId();
      var device := Device(id, fingerprint, Sha256(req.installId), req.platform, req.osVersion,
                           Sha256(req.machineName), 10, DeviceActive, now, now);
      data := data.(devices := data.devices + [device]);
    }

    /** The application and licence gates, with what a refusal there leaves behind. */
    method PassLicense(req: Verification.Request, now: Time) returns (g: Verification.LicenseGate)
      modifies this
      ensures g == Verification.GateLicense(old(data), old(issued), req, now)
      ensures W() == if g.Stop? then Verification.AfterStop(old(W()), g, now) else old(W())
    {
      hide AppNamed, LicenseById, LicenseByKey;
      var app := FindApp(req.appId);
      if app == |data.apps| || data.apps[app].status != AppActive {
        return Verification.Stop(Verification.AppNotActive, app, 0);
      }
      var appKey := data.apps[app].appKey;
      var license: nat := 0;
      var claims: Option<Claims> := None;
      if req.licenseKey != "" {
        license := FindLicenseByKey(req.licenseKey);
      } else if req.token.Some? {
        if req.token.value !in issued {
          return Verification.Stop(Verification.InvalidToken, app, 0);
        }
        claims := req.token;
        license := FindLicenseById(claims.value.licenseId);
      } else {
        return Verification.Stop(Verification.LicenseRequired, app, 0);
      }
      if license == |data.licenses| || data.licenses[license].appId != appKey {
        return Verification.Stop(Verification.InvalidLicense, app, license);
      }
      if data.licenses[license].status != Active {
        return Verification.Stop(Verification.LicenseNotActive(data.licenses[license].status), app, license);
      }
      if now > data.licenses[license].expiresAt {
        data := data.(licenses := data.licenses[license := data.licenses[license].(status := Expired)]);
        return Verification.Stop(Verification.LicenseExpired, app, license);
      }
      if claims.Some? && claims.value.appId != appKey {
        AddRiskEvent(appKey, None, data.licenses[license].id, TokenAppMismatch, High, DenyAction, now);
        return Verification.Stop(Verification.AppMismatched, app, license);
      }
      return Verification.Pass(app, license, claims);
    }

    /** The device gates, in order; the activations are counted only for a device new to the licence. */
    method PassDevice(l: License, v: Device, claims: Option<Claims>) returns (g: Verification.DeviceGate)
      ensures g == Verification.GateDevice(data, l, v, claims)
    {
      hide ActivationFor, ActiveDevices;
      if v.status == DeviceBlocked {
        return Verification.Turned(Verification.BlockedDevice, DeviceIsBlocked, High);
      }
      if claims.Some? && claims.value.deviceId != v.id {
        return Verification.Turned(Verification.DeviceMismatched, TokenDeviceMismatch, High);
      }
      var a := FindActivation(l.id, v.id);
      if claims.Some? && (a == |data.activations| || data.activations[a].status != ActivationActive) {
        return Verification.Turned(Verification.TokenDeactivated, TokenActivationInactive, Medium);
      }
      if a < |data.activations| {
        return Verification.Known(a);
      }
      var activeCount := ActiveDeviceCount(l.id);
      if activeCount >= l.maxDevices {
        return Verification.Turned(Verification.LimitExceeded, DeviceLimitExceeded, Medium);
      }
      return Verification.Fresh;
    }

    method Activate(g: Verification.DeviceGate, licenseId: Id, deviceId: Id, appKey: string, now: Time)
      requires g.Fresh? || (g.Known? && g.activation < |data.activations|)
      modifies this
      ensures W() == Verification.Activate(old(W()), g, licenseId, deviceId, appKey, now)
    {
      if g.Fresh? {
        var id := NewId();
        var activation := Activation(id, licenseId, deviceId, appKey, ActivationActive, now, now, None);
        data := data.(activations := data.activations + [activation]);
      } else {
        var activation := data.activations[g.activation].(status := ActivationActive, lastVerifiedAt := now);
        data := data.(activations := data.activations[g.activation := activation]);
      }
    }

    method Examine(device: nat, appKey: string, licenseId: Id, platform: string, i: Integrity, now: Time)
      returns (risk: IntegrityCheck.RiskResult, deny: bool)
      requires device < |data.devices|
      modifies this
      ensures W() == Verification.Examine(old(W()), device, appKey, licenseId, platform, i, now)
      ensures var signals := Verification.SignalsOn(old(data), appKey, platform, i);
              risk == IntegrityCheck.Assess(signals) && deny == IntegrityCheck.Denies(signals)
    {
      hide Verification.LogSignals, Verification.SignalsOn, Verification.ReportedRelease, IntegrityCheck.Assess,
        IntegrityCheck.Denies;
      ghost var before := W();
      var v := data.devices[device];
      var release;
      risk, release, deny := EvaluateIntegrity(appKey, v.id, licenseId, platform, i, now);
      Verification.LogKeepsDevices(before, appKey, v.id, licenseId,
                                   Verification.SignalsOn(before.data, appKey, platform, i), now);
      data := data.(devices := data.devices[device := data.devices[device].(riskScore := risk.score, lastSeenAt := now)]);
      FileReport(appKey, v.id, release, platform, i, now);
    }

    method Grant(l: License, v: Device, appKey: string, risk: IntegrityCheck.RiskResult, now: Time)
      returns (reply: Verification.Reply)
      modifies this
      ensures (W(), reply) == Verification.Grant(old(W()), l, v, appKey, risk, now)
    {
      hide Policies.BundleFor, Tokens.Normalize;
      var settings := Tokens.Normalize(data.settings, now);
      var tokenTtl := settings.tokenTtlMinutes * MINUTE;
      if risk.level == Medium || risk.level == High {
        tokenTtl := settings.mediumRiskTtlMinutes * MINUTE;
      }
      var expiresAt := now + tokenTtl;
      var graceUntil := now + settings.offlineGraceDays * DAY;
      var claims := Claims(appKey, l.id, v.id, l.entitlements, Unix(now), Unix(expiresAt), Unix(graceUntil));
      issued := issued + {claims};
      var bundle := BundlePolicies(appKey, l.id, v.id, l.entitlements, Unix(now), claims.expiresAt);
      return Verification.Granted(claims, bundle, v.status, risk);
    }

    method BindDevice(req: Verification.Request, g: Verification.LicenseGate, now: Time)
      returns (reply: Verification.Reply)
      requires g.Pass? && g.app < |data.apps| && g.license < |data.licenses|
      modifies this
      ensures (W(), reply) == Verification.Bind(old(W()), req, g, now)
    {
      hide Verification.GateDevice, Verification.Examine, Verification.SignalsOn, Verification.Grant,
        IntegrityCheck.Assess, IntegrityCheck.Denies, Verification.RefusalRisk, WithRisk;
      var appKey, l := data.apps[g.app].appKey, data.licenses[g.license];
      var i := FindOrCreateDevice(req, now);
      var v := data.devices[i];
      var gate := PassDevice(l, v, g.claims);
      if gate.Turned? {
        AddRiskEvent(appKey, Some(v.id), l.id, gate.eventType, gate.severity, DenyAction, now);
        return Verification.Denied(gate.code, Verification.RefusalRisk(gate.code));
      }
      Activate(gate, l.id, v.id, appKey, now);
      var risk, deny := Examine(i, appKey, l.id, req.platform, req.integrity, now);
      if deny {
        return Verification.Denied(Verification.IntegrityFailed, risk);
      }
      reply := Grant(l, v, appKey, risk, now);
    }

    method ProcessClientVerification(req: Verification.Request, now: Time) returns (reply: Verification.Reply)
      modifies this
      ensures (W(), reply) == Verification.Verify(old(W()), req, now)
    {
      hide RateLimit.Record, RateLimit.Reset, RateLimit.IsLimited, Challenges.Consume, Challenges.Judge,
        Verification.GateLicense, Verification.Bind, Verification.AfterStop, Verification.RefusalRisk;
      var k := Verification.RateKey(req);
      var limited := IsRateLimited(k, now);
      if limited {
        return Verification.Failed(Verification.RateLimited);
      }
      if req.appId == "" || req.challenge.None? || req.nonce == "" || req.installId == "" || req.fingerprint == "" {
        RecordFailure(k, now);
        return Verification.Failed(Verification.InvalidRequest);
      }
      var verdict := ValidateChallenge(req.appId, req.installId, req.challenge.value, req.nonce, now);
      if verdict != Challenges.Accepted {
        RecordFailure(k, now);
        var code := Verification.ChallengeInvalid;
        return Verification.Denied(code, Verification.RefusalRisk(code));
      }
      var g := PassLicense(req, now);
      if g.Stop? {
        RecordFailure(k, now);
        return Verification.Denied(g.code, Verification.RefusalRisk(g.code));
      }
      reply := BindDevice(req, g, now);
      if reply.Granted? {
        ResetFailures(k);
      } else {
        RecordFailure(k, now);
      }
    }

    // ----- capability policies -----

    method CapabilityDecision(policy: Option<Policy>, entitlements: seq<string>, capability: string)
      returns (d: Decision)
      ensures d == Policies.Decide(policy, entitlements, capability)
    {
      hide Policies.HasEntitlement, Policies.NormalizeMode;
      if policy.None? {
        return Decision(capability, "", "block", "block", false, UnknownCapability, "Capability is not registered");
      }
      var p := policy.value;
      var mode := Policies.NormalizeMode(p.mode);
      if !Policies.ValidMode(mode) {
        mode := "block";
      }
      d := Decision(p.capability, p.requiredEntitlement, mode, "allow", true, Unstated, p.message);
      var held := HasEntitlement(entitlements, p.requiredEntitlement);
      if held {
        return;
      }
      d := d.(allowed := false, reason := MissingEntitlement, effectiveMode := mode);
      if d.effectiveMode == "allow" {
        d := d.(effectiveMode := "block");
      }
    }

    method PoliciesForApp(appId: string) returns (items: seq<Policy>)
      ensures items == Policies.PoliciesForApp(data.policies, appId)
    {
      items := [];
      for i := 0 to |data.policies|
        invariant items == Policies.OfApp(data.policies[..i], appId)
      {
        assert data.policies[..i + 1][..i] == data.policies[..i];
        if data.policies[i].appId == appId {
          items := items + [data.policies[i]];
        } else {
          assert items + [] == items;
        }
      }
      assert data.policies[..|data.policies|] == data.policies;
      items := Sorting.Sort(items, Policies.ByCapability);
    }

    method BundlePolicies(appId: string, licenseId: Id, deviceId: Id, entitlements: seq<string>, issuedAt: int,
                          expiresAt: int)
      returns (bundle: Option<Bundle>)
      ensures bundle == Policies.BundleFor(data.policies, appId, licenseId, deviceId, entitlements, issuedAt, expiresAt)
    {
      hide Policies.PoliciesForApp, Policies.Decide;
      var policies := PoliciesForApp(appId);
      if |policies| == 0 {
        return None;
      }
      var decisions := [];
      for i := 0 to |policies|
        invariant |decisions| == i
        invariant forall k | 0 <= k < i ::
                    decisions[k] == Policies.Decide(Some(policies[k]), entitlements, policies[k].capability)
      {
        var decision := CapabilityDecision(Some(policies[i]), entitlements, policies[i].capability);
        decisions := decisions + [decision];
      }
      assert decisions == Policies.Decisions(policies, entitlements);
      return Some(Bundle(appId, licenseId, deviceId, entitlements, decisions, issuedAt, expiresAt));
    }

    method UpsertPolicy(policy: Policy)
      modifies this
      ensures W() == old(W()).(data := old(data).(policies := Policies.Upsert(old(data.policies), policy)))
    {
      hide Policies.NormalizeMode;
      var p := policy.(mode := Policies.NormalizeMode(policy.mode));
      var updated := false;
      for i := 0 to |data.policies|
        invariant !updated && W() == old(W()) && p == policy.(mode := Policies.NormalizeMode(policy.mode))
        invariant forall k | 0 <= k < i ::
                    !(data.policies[k].appId == p.appId && data.policies[k].capability == p.capability)
      {
        if data.policies[i].appId == p.appId && data.policies[i].capability == p.capability {
          assert i == PolicyFor(data.policies, policy.appId, policy.capability);
          p := p.(createdAt := data.policies[i].createdAt);
          if p.createdAt == ZERO_TIME {
            p := p.(createdAt := p.updatedAt);
          }
          data := data.(policies := data.policies[i := p]);
          updated := true;
          break;
        }
      }
      if !updated {
        if p.createdAt == ZERO_TIME {
          p := p.(createdAt := p.updatedAt);
        }
        data := data.(policies := data.policies + [p]);
      }
    }

    method UpsertCapabilityPolicies(policies: seq<Policy>)
      modifies this
      ensures W() == old(W()).(data := old(data).(policies := Policies.UpsertAll(old(data.policies), policies)))
    {
      hide Policies.Upsert;
      for i := 0 to |policies|
        invariant W() == old(W()).(data := old(data).(policies := Policies.UpsertAll(old(data.policies), policies[..i])))
      {
        assert policies[..i + 1][..i] == policies[..i];
        UpsertPolicy(policies[i]);
      }
      assert policies[..|policies|] == policies;
    }

    method EnsureDefaultVisionFlowPolicies(appId: string, now: Time) returns (added: nat)
      modifies this
      ensures W() == Steps.SeedPolicies(old(W()), appId, now)
      ensures added == |data.policies| - |old(data.policies)|
    {
      hide Policies.VisionFlowDefaults;
      added := 0;
      var wanted := Policies.VisionFlowDefaults(appId, now);
      for i := 0 to |wanted|
        invariant W() == old(W()).(data := old(data).(policies := Policies.Seed(old(data.policies), wanted[..i])))
        invariant added == |data.policies| - |old(data.policies)|
      {
        assert wanted[..i + 1][..i] == wanted[..i];
        var known := FindPolicy(wanted[i].appId, wanted[i].capability);
        if known < |data.policies| {
          continue;
        }
        data := data.(policies := data.policies + [wanted[i]]);
        added := added + 1;
      }
      assert wanted[..|wanted|] == wanted;
    }

    method UpsertPolicies(appId: string, items: seq<Policy>, adminId: string, now: Time) returns (status: Steps.Status)
      modifies this
      ensures (W(), status) == Steps.UpsertPolicies(old(W()), appId, items, adminId, now)
    {
      hide Policies.NormalizePolicy, Policies.UpsertAll, AppNamed;
      if |items| == 0 {
        return Steps.InvalidRequest;
      }
      var batch := [];
      for i := 0 to |items|
        invariant W() == old(W())
        invariant Steps.NormalizeAll(appId, items[..i], now) == Some(batch)
      {
        assert items[..i + 1][..i] == items[..i];
        var p := Policies.NormalizePolicy(appId, items[i], now);
        if p.None? {
          NormalizeStops(appId, items, i, now);
          return Steps.InvalidPolicy;
        }
        batch := batch + [p.value];
      }
      assert items[..|items|] == items;
      var app := FindApp(appId);
      if app == |data.apps| {
        return Steps.AppNotFound;
      }
      UpsertCapabilityPolicies(batch);
      Audit(adminId, PolicyUpsert, OnApp(appId), now);
      return Steps.Ok;
    }

    method SeedDefaults(appId: string, adminId: string, now: Time) returns (status: Steps.Status)
      modifies this
      ensures (W(), status) == Steps.SeedDefaults(old(W()), appId, adminId, now)
    {
      hide AppNamed, Steps.SeedPolicies;
      var app := FindApp(appId);
      if app == |data.apps| {
        return Steps.AppNotFound;
      }
      var _ := EnsureDefaultVisionFlowPolicies(appId, now);
      Audit(adminId, PolicySeed, OnApp(appId), now);
      return Steps.Ok;
    }

    // ----- requests that carry a token -----

    /** Genuine, not expired, and of the application it is presented for. */
    method PassToken(appId: string, c: Claims, now: Time) returns (status: Steps.Status)
      ensures status == Steps.TokenGate(W(), appId, c, now)
    {
      if c !in issued || Unix(now) > c.expiresAt {
        return Steps.InvalidToken;
      }
      if appId != "" && c.appId != appId {
        return Steps.AppMismatch;
      }
      return Steps.Ok;
    }

    method Heartbeat(req: Steps.HeartbeatRequest, now: Time) returns (status: Steps.Status)
      modifies this
      ensures (W(), status) == Steps.Heartbeat(old(W()), req, now)
    {
      hide Steps.TokenGate, Steps.ExamineBeat, Steps.HasEvidence, WithRisk, Verification.SignalsOn,
        IntegrityCheck.Denies, ActivationFor, DeviceById;
      var c := req.token;
      status := PassToken(req.appId, c, now);
      if status != Steps.Ok {
        return;
      }
      var a := FindActivation(c.licenseId, c.deviceId);
      if a < |data.activations| {
        data := data.(activations := data.activations[a := data.activations[a].(lastVerifiedAt := now)]);
      }
      var v := FindDeviceById(c.deviceId);
      if v < |data.devices| {
        if req.installId != "" && data.devices[v].installHash != Sha256(req.installId) {
          AddRiskEvent(c.appId, Some(c.deviceId), c.licenseId, TokenDeviceMismatch, High, DenyAction, now);
          return Steps.DeviceMismatch;
        }
        TouchDevice(v, c.deviceId, now);
      }
      var platform := req.platform;
      if platform == "" && v < |data.devices| {
        platform := data.devices[v].platform;
      }
      if platform == "" {
        platform := "windows";
      }
      if req.integrity.Some? {
        var i := req.integrity.value;
        if i.appVersion == "" {
          i := i.(appVersion := req.appVersion);
        }
        if Steps.HasEvidence(i) {
          var deny := ExamineBeat(c, platform, i, now);
          if deny {
            return Steps.IntegrityRefused;
          }
        }
      }
      return Steps.Ok;
    }

    method TouchDevice(v: nat, id: Id, now: Time)
      requires v == DeviceById(data.devices, id) && v < |data.devices|
      modifies this
      ensures W() == Steps.TouchDevice(old(W()), id, now)
      ensures DeviceById(data.devices, id) == v
      ensures v < |data.devices|
    {
      data := data.(devices := data.devices[v := data.devices[v].(lastSeenAt := now)]);
      assert forall k | 0 <= k < |data.devices| :: data.devices[k].id == old(data.devices)[k].id;
    }

    method ExamineBeat(c: Claims, platform: string, i: Integrity, now: Time) returns (deny: bool)
      modifies this
      ensures W() == Steps.ExamineBeat(old(W()), c, platform, i, now)
      ensures deny == IntegrityCheck.Denies(Verification.SignalsOn(old(data), c.appId, platform, i))
    {
      hide Verification.LogSignals, Verification.SignalsOn, Verification.ReportedRelease, IntegrityCheck.Assess,
        IntegrityCheck.Denies;
      var risk, release;
      risk, release, deny := EvaluateIntegrity(c.appId, c.deviceId, c.licenseId, platform, i, now);
      var v := FindDeviceById(c.deviceId);
      if v < |data.devices| {
        data := data.(devices := data.devices[v := data.devices[v].(riskScore := risk.score)]);
      }
      FileReport(c.appId, c.deviceId, release, platform, i, now);
    }

    method CapabilityCheck(req: Steps.CapabilityRequest, now: Time)
      returns (status: Steps.Status, decision: Option<Decision>)
      modifies this
      ensures (W(), status, decision) == Steps.CapabilityCheck(old(W()), req, now)
    {
      hide Steps.TokenGate, Policies.Decide, LicenseById, ActivationFor, PolicyFor, Text.TrimSpace;
      decision := None;
      var capability := Text.TrimSpace(req.capability);
      if req.token.None? || capability == "" {
        return Steps.InvalidRequest, None;
      }
      var c := req.token.value;
      status := PassToken(req.appId, c, now);
      if status != Steps.Ok {
        return;
      }
      var l := FindLicenseById(c.licenseId);
      if l == |data.licenses| || data.licenses[l].appId != c.appId || data.licenses[l].status != Active {
        return Steps.LicenseUnusable, None;
      }
      var a := FindActivation(c.licenseId, c.deviceId);
      if a == |data.activations| || data.activations[a].status != ActivationActive {
        return Steps.ActivationUnusable, None;
      }
      var p := FindPolicy(c.appId, capability);
      var d := CapabilityDecision(if p < |data.policies| then Some(data.policies[p]) else None,
                                  data.licenses[l].entitlements, capability);
      if !d.allowed {
        var severity := Medium;
        if d.effectiveMode == "warn" || d.effectiveMode == "watermark" || d.effectiveMode == "degrade" {
          severity := Low;
        }
        var action := ModeAction(d.effectiveMode);
        AddRiskEvent(c.appId, Some(c.deviceId), c.licenseId, CapabilityDenied, severity, action, now);
      }
      return Steps.Ok, Some(d);
    }

    method Deactivate(req: Steps.DeactivateRequest, now: Time) returns (status: Steps.Status)
      modifies this
      ensures (W(), status) == Steps.Deactivate(old(W()), req, now)
    {
      hide Steps.TokenGate, WithRisk, ActivationFor, DeviceById;
      var c := req.token;
      status := PassToken(req.appId, c, now);
      if status != Steps.Ok {
        return;
      }
      var v := FindDeviceById(c.deviceId);
      if v < |data.devices| && req.installId != "" && data.devices[v].installHash != Sha256(req.installId) {
        AddRiskEvent(c.appId, Some(c.deviceId), c.licenseId, TokenDeviceMismatch, High, DenyAction, now);
        return Steps.DeviceMismatch;
      }
      var a := FindActivation(c.licenseId, c.deviceId);
      if a < |data.activations| && data.activations[a].status != Deactivated {
        var off := data.activations[a].(status := Deactivated, lastVerifiedAt := now, deactivatedAt := Some(now));
        data := data.(activations := data.activations[a := off]);
      }
      if v < |data.devices| {
        TouchDevice(v, c.deviceId, now);
      }
      return Steps.Ok;
    }

    // ----- admin actions -----

    method ActOnLicense(id: Id, action: Steps.LicenseAction, adminId: string, now: Time) returns (status: Steps.Status)
      modifies this
      ensures (W(), status) == Steps.ActOnLicense(old(W()), id, action, adminId, now)
    {
      hide LicenseById, WithAudit;
      var l := FindLicenseById(id);
      if l == |data.licenses| {
        return Steps.LicenseNotFound;
      }
      var license := data.licenses[l];
      match action {
        case Revoke => license := license.(status := Revoked);
        case Suspend => license := license.(status := Suspended);
        case Resume => license := license.(status := Active);
      }
      data := data.(licenses := data.licenses[l := license.(updatedAt := now)]);
      if action == Steps.Revoke {
        BlockActivations(id);
      }
      Audit(adminId, Steps.LicenseAudit(action), OnLicense(id), now);
      return Steps.Ok;
    }

    method BlockActivations(licenseId: Id)
      modifies this
      ensures W() == WithActivations(old(W()), Steps.BlockActivations(old(data.activations), licenseId))
    {
      ghost var before, after := data.activations, Steps.BlockActivations(data.activations, licenseId);
      for i := 0 to |data.activations|
        invariant |data.activations| == |before|
        invariant W() == WithActivations(old(W()), data.activations)
        invariant forall k | 0 <= k < i :: data.activations[k] == after[k]
        invariant forall k | i <= k < |before| :: data.activations[k] == before[k]
      {
        if data.activations[i].licenseId == licenseId {
          data := data.(activations := data.activations[i := data.activations[i].(status := ActivationBlocked)]);
        }
      }
    }

    method ActOnDevice(id: Id, action: Steps.DeviceAction, adminId: string, now: Time) returns (status: Steps.Status)
      modifies this
      ensures (W(), status) == Steps.ActOnDevice(old(W()), id, action, adminId, now)
    {
      hide DeviceById, WithAudit, Steps.UnbindActivations;
      var v := FindDeviceById(id);
      if v == |data.devices| {
        return Steps.DeviceNotFound;
      }
      var device := data.devices[v];
      if action == Steps.Block {
        device := device.(status := DeviceBlocked);
      } else if action == Steps.Unblock {
        device := device.(status := DeviceActive);
      } else {
        UnbindActivations(id, now);
      }
      data := data.(devices := data.devices[v := device.(lastSeenAt := now)]);
      Audit(adminId, Steps.DeviceAudit(action), OnDevice(id), now);
      return Steps.Ok;
    }

    method UnbindActivations(deviceId: Id, now: Time)
      modifies this
      ensures W() == WithActivations(old(W()), Steps.UnbindActivations(old(data.activations), deviceId, now))
    {
      ghost var before, after := data.activations, Steps.UnbindActivations(data.activations, deviceId, now);
      for i := 0 to |data.activations|
        invariant |data.activations| == |before|
        invariant W() == WithActivations(old(W()), data.activations)
        invariant forall k | 0 <= k < i :: data.activations[k] == after[k]
        invariant forall k | i <= k < |before| :: data.activations[k] == before[k]
      {
        var a := data.activations[i];
        if a.deviceId == deviceId && a.status == ActivationActive {
          a := a.(status := Deactivated, deactivatedAt := Some(now), lastVerifiedAt := now);
          data := data.(activations := data.activations[i := a]);
        }
      }
    }

    method ResolveRisk(id: Id, adminId: string, now: Time) returns (status: Steps.Status)
      modifies this
      ensures (W(), status) == Steps.ResolveRisk(old(W()), id, adminId, now)
    {
      hide RiskEventById, WithAudit;
      var e := FindRiskEvent(id);
      if e == |data.riskEvents| {
        return Steps.EventNotFound;
      }
      if data.riskEvents[e].resolvedAt.None? {
        data := data.(riskEvents := data.riskEvents[e := data.riskEvents[e].(resolvedAt := Some(now))]);
        Audit(adminId, RiskResolve, OnRiskEvent(id), now);
      }
      return Steps.Ok;
    }

    method RetireKeys(appId: string, now: Time)
      modifies this
      ensures W() == old(W()).(data := old(data).(sdkKeys := Steps.RetireKeys(old(data.sdkKeys), appId, now)))
    {
      ghost var before, after := data.sdkKeys, Steps.RetireKeys(data.sdkKeys, appId, now);
      for i := 0 to |data.sdkKeys|
        invariant |data.sdkKeys| == |before|
        invariant W() == old(W()).(data := old(data).(sdkKeys := data.sdkKeys))
        invariant forall k | 0 <= k < i :: data.sdkKeys[k] == after[k]
        invariant forall k | i <= k < |before| :: data.sdkKeys[k] == before[k]
      {
        var key := data.sdkKeys[i];
        if key.appId == appId && key.status == KeyActive {
          data := data.(sdkKeys := data.sdkKeys[i := key.(status := KeyRotated, rotatedAt := Some(now))]);
        }
      }
      assert data.sdkKeys == after;
    }

    method RotateKey(appId: string, adminId: string, now: Time) returns (status: Steps.Status)
      modifies this
      ensures (W(), status) == Steps.RotateKey(old(W()), appId, adminId, now)
    {
      hide AppNamed, WithAudit, Steps.RetireKeys;
      var app := FindApp(appId);
      if app == |data.apps| {
        return Steps.AppNotFound;
      }
      RetireKeys(appId, now);
      var id := NewId();
      data := data.(sdkKeys := data.sdkKeys + [SdkKey(id, appId, KeyActive, now, Some(now))]);
      Audit(adminId, SdkKeyRotate, OnApp(appId), now);
      return Steps.Ok;
    }

    method CreateLicense(req: Steps.LicenseRequest, key: string, adminId: string, now: Time)
      returns (status: Steps.Status)
      modifies this
      ensures (W(), status) == Steps.CreateLicense(old(W()), req, key, adminId, now)
    {
      hide AppNamed, WithAudit, Tokens.Normalize;
      var appId := if req.appId == "" then Steps.DEMO_APP else req.appId;
      var settings := Tokens.Normalize(data.settings, now);
      var maxDevices := if req.maxDevices <= 0 then settings.maxDevices else req.maxDevices;
      var entitlements := if |req.entitlements| == 0 then ["feature.pro", "export.enabled"] else req.entitlements;
      var expiresAt := now + settings.licenseDays * DAY;
      if req.expiry.Unparsable? {
        return Steps.InvalidExpiry;
      }
      if req.expiry.On? {
        expiresAt := req.expiry.at;
      }
      var app := FindApp(appId);
      if app == |data.apps| {
        return Steps.AppNotFound;
      }
      var id := NewId();
      var license := License(id, Sha256(key), appId, maxDevices, entitlements, expiresAt, Active, now);
      data := data.(licenses := data.licenses + [license]);
      Audit(adminId, LicenseCreate, OnLicense(id), now);
      return Steps.Ok;
    }

    /** `id` is the identifier drawn for the app. */
    method CreateApp(id: string, appKey: string, name: string, platform: string, version: string, adminId: string,
                     now: Time)
      returns (status: Steps.Status)
      modifies this
      ensures (W(), status) == Steps.CreateApp(old(W()), id, appKey, name, platform, version, adminId, now)
    {
      hide AppNamed, WithAudit, Steps.SeedPolicies, Steps.IsVisionFlow;
      if appKey == "" || name == "" {
        return Steps.InvalidRequest;
      }
      var known := FindApp(appKey);
      if known < |data.apps| {
        return Steps.AppExists;
      }
      data := data.(apps := data.apps + [App(id, appKey, AppActive)]);
      var releaseId := NewId();
      data := data.(releases := data.releases + [Steps.FirstRelease(releaseId, appKey, platform, version, now)]);
      var keyId := NewId();
      data := data.(sdkKeys := data.sdkKeys + [SdkKey(keyId, appKey, KeyActive, now, None)]);
      if Steps.IsVisionFlow(appKey) {
        var _ := EnsureDefaultVisionFlowPolicies(appKey, now);
      }
      Audit(adminId, AppCreate, OnApp(appKey), now);
      return Steps.Ok;
    }

    method UpdateSettings(p: Steps.SettingsPatch, adminId: string, now: Time) returns (status: Steps.Status)
      modifies this
      ensures (W(), status) == Steps.UpdateSettings(old(W()), p, adminId, now)
    {
      hide WithAudit, Tokens.Normalize, Steps.Patched;
      var settings := PatchSettings(Tokens.Normalize(data.settings, now), p, now);
      data := data.(settings := Tokens.Normalize(settings, now));
      Audit(adminId, SettingsUpdate, OnSettings, now);
      return Steps.Ok;
    }

    method CreateRelease(appId: string, r: Release, validate: bool, adminId: string, now: Time)
      returns (status: Steps.Status)
      modifies this
      ensures (W(), status) == Steps.CreateRelease(old(W()), appId, r, validate, adminId, now)
    {
      hide AppNamed, WithAudit, Releases.ClampPercent, Steps.MissingFields;
      if r.version == "" || r.platform == "" {
        return Steps.InvalidRequest;
      }
      if validate {
        var missing := MissingReleaseFields(r);
        if |missing| > 0 {
          return Steps.ReleaseIncomplete;
        }
      }
      var app := FindApp(appId);
      if app == |data.apps| {
        return Steps.AppNotFound;
      }
      var id := NewId();
      var release := r.(id := id, appId := appId, createdAt := now);
      if release.status == "" {
        release := release.(status := "active");
      }
      if release.rolloutPercent == 0 {
        release := release.(rolloutPercent := 100);
      } else {
        release := release.(rolloutPercent := Releases.ClampPercent(release.rolloutPercent));
      }
      data := data.(releases := data.releases + [release]);
      Audit(adminId, ReleaseCreate, OnApp(appId), now);
      return Steps.Ok;
    }

    method PatchRelease(appId: string, id: Id, p: Steps.ReleasePatch, adminId: string, now: Time)
      returns (status: Steps.Status)
      modifies this
      ensures (W(), status) == Steps.PatchRelease(old(W()), appId, id, p, adminId, now)
    {
      hide ReleaseById, WithAudit, Steps.MissingFields, Steps.PatchedRelease;
      var i := FindFirst(data.releases, (r: Release) => r.appId == appId && r.id == id);
      if i == |data.releases| {
        return Steps.ReleaseNotFound;
      }
      var updated := PatchFields(data.releases[i], p);
      if p.validate {
        var missing := MissingReleaseFields(updated);
        if |missing| > 0 {
          return Steps.ReleaseIncomplete;
        }
      }
      data := data.(releases := data.releases[i := updated]);
      Audit(adminId, ReleaseUpdate, OnRelease(id), now);
      return Steps.Ok;
    }

    // ----- the diagnostic -----

    method Diagnose(q: Diagnostics.Query, now: Time) returns (r: Option<Diagnostics.Diagnosis>)
      ensures r == Diagnostics.Diagnose(data, q, now)
    {
      hide AppNamed, LicenseById, LicenseByKey, DeviceById, DeviceByInstall, ActivationFor,
        Diagnostics.LatestActivation;
      var app := FindApp(q.appId);
      if app == |data.apps| {
        return None;
      }
      var findings := [if data.apps[app].status == AppActive then Diagnostics.AppIsActive else Diagnostics.AppNotActive];

      var license: nat := |data.licenses|;
      if q.licenseId.Some? {
        license := FindLicenseById(q.licenseId.value);
      } else if q.licenseKey != "" {
        license := FindLicenseByKey(q.licenseKey);
      }
      findings := findings + [Diagnostics.LicenseFinding(data, q, Diagnostics.At(data.licenses, license), now)];

      var device, activation := FindPair(q, Diagnostics.At(data.licenses, license));
      findings := findings + [Diagnostics.DeviceFinding(data, q, device)];
      findings := findings + [Diagnostics.ActivationFinding(data, activation)];
      assert findings == [
        Diagnostics.AppFinding(data.apps[app]),
        Diagnostics.LicenseFinding(data, q, Diagnostics.FindLicense(data, q), now),
        Diagnostics.DeviceFinding(data, q, device), Diagnostics.ActivationFinding(data, activation)];
      return Some(Diagnostics.Diagnosis(Diagnostics.At(data.licenses, license), device, activation, findings));
    }

    method FindPair(q: Diagnostics.Query, license: Option<nat>) returns (device: Option<nat>, activation: Option<nat>)
      requires license.Some? ==> license.value < |data.licenses|
      ensures (device, activation) == Diagnostics.FindPair(data, q, license)
    {
      hide LicenseById, DeviceById, DeviceByInstall, ActivationFor, Diagnostics.LatestActivation;
      device := FindDiagnosticDevice(q, license);
      activation := None;
      if license.Some? && device.Some? {
        var a := FindActivation(data.licenses[license.value].id, data.devices[device.value].id);
        activation := Diagnostics.At(data.activations, a);
      }
      if activation.None? && license.Some? {
        activation := LatestActivation(data.licenses[license.value].id);
        if activation.Some? && device.None? {
          var v := FindDeviceById(data.activations[activation.value].deviceId);
          device := Diagnostics.At(data.devices, v);
        }
      }
    }

    method FindDiagnosticDevice(q: Diagnostics.Query, license: Option<nat>) returns (device: Option<nat>)
      requires license.Some? ==> license.value < |data.licenses|
      ensures device == Diagnostics.FindDevice(data, q, license)
    {
      hide LicenseById, DeviceById, DeviceByInstall, Diagnostics.LatestActivation;
      var v: nat;
      if q.deviceId.Some? {
        v := FindDeviceById(q.deviceId.value);
        return Diagnostics.At(data.devices, v);
      }
      if q.installId != "" {
        v := FindDeviceByInstall(Sha256(q.installId));
        return Diagnostics.At(data.devices, v);
      }
      if license.None? {
        return None;
      }
      var activation := LatestActivation(data.licenses[license.value].id);
      if activation.None? {
        return None;
      }
      v := FindDeviceById(data.activations[activation.value].deviceId);
      return Diagnostics.At(data.devices, v);
    }

    // ----- the server as the machine -----

    /** The run so far; nothing the server does depends on it. */
    ghost var run: Machine.Run

    /** What has happened is a run of the machine from a valid state to the present one. */
    ghost predicate Valid()
      reads this
    {
      && Machine.IsRun(run)
      && Invariants.Valid(run.states[0])
      && run.states[|run.calls|] == W()
    }

    /** A server opened on stored data, with an empty challenge table and limiter. */
    constructor (stored: Data, limits: RateLimit.Limits, signed: set<Claims>, next: Id)
      requires Invariants.Valid(World(stored, map[], map[], limits, signed, next))
      ensures Valid()
      ensures W() == World(stored, map[], map[], limits, signed, next)
    {
      data := stored;
      challenges := map[];
      rates := map[];
      this.limits := limits;
      issued := signed;
      nextId := next;
      run := Machine.Run([World(stored, map[], map[], limits, signed, next)], [], []);
    }

    /** Any request: the server answers as the machine does and moves to the same state. */
    method Dispatch(call: Machine.Call) returns (answer: Machine.Response)
      modifies this
      ensures (W(), answer) == Machine.Step(old(W()), call)
    {
      hide Verification.Verify, Steps.CapabilityCheck, Steps.IssueChallenge, Steps.Heartbeat, Steps.Deactivate,
        Steps.ActOnLicense, Steps.CreateLicense, Steps.ActOnDevice, Steps.ResolveRisk, Steps.RotateKey, Steps.CreateApp,
        Steps.UpsertPolicies, Steps.SeedDefaults, Steps.UpdateSettings, Steps.CreateRelease, Steps.PatchRelease;
      var now, admin := call.now, call.adminId;
      var status;
      match call.command {
        case Verify(req) =>
          var reply := ProcessClientVerification(req, now);
          return Machine.Verified(reply);
        case CapabilityCheck(req) =>
          var decision;
          status, decision := CapabilityCheck(req, now);
          return Machine.Decided(status, decision);
        case SetRateLimit(l) =>
          limits := l;
          rates := map[];
          status := Steps.Ok;
        case IssueChallenge(req) => status := IssueChallenge(req, now);
        case Heartbeat(req) => status := Heartbeat(req, now);
        case Deactivate(req) => status := Deactivate(req, now);
        case ActOnLicense(id, action) => status := ActOnLicense(id, action, admin, now);
        case CreateLicense(req, key) => status := CreateLicense(req, key, admin, now);
        case ActOnDevice(id, action) => status := ActOnDevice(id, action, admin, now);
        case ResolveRisk(id) => status := ResolveRisk(id, admin, now);
        case RotateKey(appId) => status := RotateKey(appId, admin, now);
        case CreateApp(id, appKey, name, platform, version) =>
          status := CreateApp(id, appKey, name, platform, version, admin, now);
        case UpsertPolicies(appId, items) => status := UpsertPolicies(appId, items, admin, now);
        case SeedDefaults(appId) => status := SeedDefaults(appId, admin, now);
        case UpdateSettings(patch) => status := UpdateSettings(patch, admin, now);
        case CreateRelease(appId, release, validate) =>
          status := CreateRelease(appId, release, validate, admin, now);
        case PatchRelease(appId, id, patch) => status := PatchRelease(appId, id, patch, admin, now);
      }
      return Machine.Done(status);
    }

    /** A request served under the lock, with a clock that has not run backwards; the run grows by this one step. */
    method Serve(call: Machine.Call) returns (answer: Machine.Response)
      requires Valid()
      requires run.calls != [] ==> run.calls[|run.calls| - 1].now <= call.now
      modifies this
      ensures Valid()
      ensures (W(), answer) == Machine.Step(old(W()), call)
      ensures run == Machine.Run(old(run.states) + [W()], old(run.calls) + [call], old(run.answers) + [answer])
    {
      hide Machine.Step, Invariants.Valid;
      ghost var before := run;
      answer := Dispatch(call);
      run := Machine.Run(before.states + [W()], before.calls + [call], before.answers + [answer]);
      RunGrows(before, run, call);
    }

    // ----- the run theorems, of this object -----

    /** Every grant this server has given was deserved when it was given, and what it had to show, it had shown. */
    lemma EveryGrantWasSound(i: nat)
      requires Valid() && i < |run.calls| && run.answers[i].Verified? && run.answers[i].reply.Granted?
      ensures run.calls[i].command.Verify?
      ensures var w, w', req, now := run.states[i], run.states[i + 1], run.calls[i].command.request, run.calls[i].now;
              var c := run.answers[i].reply.claims;
              && DecisionLaws.Deserves(w, req, now)
              && GrantLaws.ConsumedChallenge(w, w', req, now)
              && GrantLaws.ClaimsLicense(w, req, c, now)
              && GrantLaws.ClaimsDevice(w', req, c)
    {
      hide Machine.Step, Invariants.Valid, DecisionLaws.Deserves, GrantLaws.ConsumedChallenge, GrantLaws.ClaimsLicense,
        GrantLaws.ClaimsDevice;
      GrantLaws.EveryGrantIsSound(run, i);
      DecisionLaws.EveryDecision(run, i);
    }

    /** The devices active now under a licence: within its limit, but for the calls that switched one back on. */
    lemma ActiveWithinLimit(l: License)
      requires Valid() && l in data.licenses
      ensures |ActiveDevices(data.activations, l.id)|
              <= LimitLaws.Max(|ActiveDevices(run.states[0].data.activations, l.id)|, l.maxDevices)
                 + LimitLaws.Reactivations(run, l.id, |run.calls|)
    {
      hide Machine.Step, Invariants.Valid, ActiveDevices, LimitLaws.Reactivations;
      LimitLaws.DeviceLimit(run, l, |run.calls|);
    }

    /** The keys of the present lists, and their growth from what the server was opened on. */
    lemma RecordsInOrder()
      requires Valid()
      ensures Invariants.Valid(W()) && Invariants.Grows(run.states[0], W())
    {
      hide Machine.Step, Invariants.Valid, Invariants.Grows;
      StepInvariants.RunKeeps(run, 0, |run.calls|);
    }
  }

  lemma RunGrows(before: Machine.Run, after: Machine.Run, call: Machine.Call)
    requires Machine.IsRun(before)
    requires before.calls != [] ==> before.calls[|before.calls| - 1].now <= call.now
    requires var (w, answer) := Machine.Step(before.states[|before.calls|], call);
             after == Machine.Run(before.states + [w], before.calls + [call], before.answers + [answer])
    ensures Machine.IsRun(after)
  {
    hide Machine.Step;
    forall i | 0 <= i < |after.calls| ensures Machine.Stepped(after, i) {
      assert i < |before.calls| ==> Machine.Stepped(before, i);
    }
  }
}
