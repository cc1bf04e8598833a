/** Over whole runs: what a granted request has shown, and what its token and bundle are then worth. */
module GrantLaws {
  import opened Types
  import opened Lookup
  import opened World
  import opened Invariants
  import opened Machine
  import opened StepInvariants
  import opened Frames
  import ActivationLaws
  import IntegrityCheck
  import OfflineSdk
  import Policies
  import Releases
  import Steps
  import Text
  import Tokens
  import Verification
  import VerifyLaws

  /** The one stored licence with this identifier, when there is one. */
  function LicenseNamed(w: World, id: Id): Option<License> {
    var i := LicenseById(w.data.licenses, id);
    if i < |w.data.licenses| then Some(w.data.licenses[i]) else None
  }

  /** It consumed a live challenge issued for this application, installation and nonce. */
  ghost predicate ConsumedChallenge(w: World, w': World, req: Verification.Request, now: Time) {
    && req.challenge.Some?
    && var id := req.challenge.value;
       && id in w.challenges && id !in w'.challenges
       && now <= w.challenges[id].expiresAt
       && w.challenges[id].appId == req.appId && w.challenges[id].installId == req.installId
       && w.challenges[id].nonce == req.nonce
  }

  /** The claims name an active, unexpired licence of the active application asked for, with its entitlements. */
  ghost predicate ClaimsLicense(w: World, req: Verification.Request, c: Claims, now: Time) {
    var app, l := AppNamed(w.data.apps, req.appId), LicenseNamed(w, c.licenseId);
    && app < |w.data.apps| && w.data.apps[app].status == AppActive && c.appId == w.data.apps[app].appKey
    && l.Some? && l.value.status == Active && now <= l.value.expiresAt
    && l.value.appId == c.appId && l.value.entitlements == c.entitlements
  }

  /** They name the device with the presented fingerprint, not blocked, and its activation is active afterwards. */
  ghost predicate ClaimsDevice(w': World, req: Verification.Request, c: Claims) {
    var i := DeviceById(w'.data.devices, c.deviceId);
    var k := ActivationFor(w'.data.activations, c.licenseId, c.deviceId);
    && i < |w'.data.devices| && w'.data.devices[i].fingerprint == Sha256(req.fingerprint)
    && w'.data.devices[i].status == DeviceActive
    && k < |w'.data.activations| && w'.data.activations[k].status == ActivationActive
  }

  lemma GrantShows(w: World, req: Verification.Request, now: Time)
    requires Valid(w) && Verification.Verify(w, req, now).1.Granted?
    ensures VerifyLaws.Heard(w, req, now) && VerifyLaws.PassesGates(w, req, now)
    ensures var (w', reply) := Verification.Verify(w, req, now);
            var l, v := VerifyLaws.LicenseOf(w, req, now), VerifyLaws.DeviceOf(w, req, now);
            && ConsumedChallenge(w, w', req, now)
            && ClaimsLicense(w, req, reply.claims, now)
            && reply.claims.licenseId == l.id && reply.claims.deviceId == v.id
            && w'.data.activations == VerifyLaws.ActivationsAfter(w, req, now)
            && reply.claims in w'.issued
            && VerifyLaws.DeviceAfter(w'.data.devices, v)
  {
    hide Verification.Verify, VerifyLaws.PassesGates, VerifyLaws.SignalsOf, Verification.GateLicense,
      Verification.SeeDevice, Verification.GateDevice, Policies.BundleFor, IntegrityCheck.Assess, IntegrityCheck.Denies,
      Tokens.Normalize;
    VerifyLaws.VerifyEffect(w, req, now);
    ActivationLaws.PassedMeans(w, req, now);
    var l := VerifyLaws.LicenseOf(w, req, now);
    ActivationLaws.OneLicense(w.data.licenses, w.nextId, l, w.data.licenses[LicenseById(w.data.licenses, l.id)]);
  }

  lemma DeviceShown(w: World, req: Verification.Request, now: Time)
    requires Valid(w) && Verification.Verify(w, req, now).1.Granted?
    ensures var (w', reply) := Verification.Verify(w, req, now);
            ClaimsDevice(w', req, reply.claims)
  {
    hide Verification.Verify, VerifyLaws.PassesGates, VerifyLaws.SignalsOf, Verification.GateLicense, Grows, Valid,
      Verification.SeeDevice, Verification.GateDevice, VerifyLaws.Heard, VerifyLaws.ActivationsAfter,
      VerifyLaws.LicenseOf, VerifyLaws.DeviceOf, ConsumedChallenge, ClaimsLicense;
    GrantShows(w, req, now);
    ActivationLaws.PassedMeans(w, req, now);
    VerifyKeeps(w, req, now);
    var w' := Verification.Verify(w, req, now).0;
    var l, v := VerifyLaws.LicenseOf(w, req, now), VerifyLaws.DeviceOf(w, req, now);
    var x :| x in w'.data.devices && x.id == v.id && x.fingerprint == v.fingerprint && x.status == v.status;
    OneDevice(w', x);
    PairIsOn(w, req, now);
  }

  /** The pair's own activation is on afterwards. */
  lemma PairIsOn(w: World, req: Verification.Request, now: Time)
    requires VerifyLaws.PassesGates(w, req, now)
    ensures var after := VerifyLaws.ActivationsAfter(w, req, now);
            var k := ActivationFor(after, VerifyLaws.LicenseOf(w, req, now).id, VerifyLaws.DeviceOf(w, req, now).id);
            k < |after| && after[k].status == ActivationActive
  {
    hide VerifyLaws.PassesGates, VerifyLaws.LicenseOf, VerifyLaws.DeviceOf;
    var l, v := VerifyLaws.LicenseOf(w, req, now), VerifyLaws.DeviceOf(w, req, now);
    var before, after := w.data.activations, VerifyLaws.ActivationsAfter(w, req, now);
    var k := ActivationFor(before, l.id, v.id);
    assert after[k].licenseId == l.id && after[k].deviceId == v.id;
    assert forall i | 0 <= i < k :: after[i] == before[i];
  }

  lemma OneDevice(w: World, x: Device)
    requires Valid(w) && x in w.data.devices
    ensures var i := DeviceById(w.data.devices, x.id); i < |w.data.devices| && w.data.devices[i] == x
  {
  }

  /** Soundness of every grant in every run. */
  lemma EveryGrantIsSound(r: Run, i: nat)
    requires IsRun(r) && Valid(r.states[0]) && i < |r.calls|
    requires r.answers[i].Verified? && r.answers[i].reply.Granted?
    ensures r.calls[i].command.Verify?
    ensures var w, w', req, now := r.states[i], r.states[i + 1], r.calls[i].command.request, r.calls[i].now;
            var c := r.answers[i].reply.claims;
            && ConsumedChallenge(w, w', req, now)
            && ClaimsLicense(w, req, c, now)
            && ClaimsDevice(w', req, c)
            && c in w'.issued
  {
    hide Step, Valid, Verification.Verify, ConsumedChallenge, ClaimsLicense, ClaimsDevice;
    RunKeeps(r, i, i);
    assert Stepped(r, i);
    ActivationLaws.StepAnswers(r.states[i], r.calls[i]);
    GrantShows(r.states[i], r.calls[i].command.request, r.calls[i].now);
    DeviceShown(r.states[i], r.calls[i].command.request, r.calls[i].now);
  }

  /** Once the clock has passed a licence's expiry, nothing that happens, a resume included, gets another grant for it. */
  lemma NoGrantAfterExpiry(r: Run, l: License, i: nat, j: nat)
    requires IsRun(r) && Valid(r.states[0]) && i <= j < |r.calls|
    requires l in r.states[i].data.licenses && r.calls[j].now > l.expiresAt
    requires r.answers[j].Verified? && r.answers[j].reply.Granted?
    ensures r.answers[j].reply.claims.licenseId != l.id
  {
    hide Valid, Grows, Step, ConsumedChallenge, ClaimsDevice;
    EveryGrantIsSound(r, j);
    RunKeeps(r, i, j);
    SameExpiry(r.states[i], r.states[j], l);
  }

  lemma SameExpiry(w: World, w': World, l: License)
    requires Valid(w') && Grows(w, w') && l in w.data.licenses
    ensures LicenseNamed(w', l.id).Some?
    ensures LicenseNamed(w', l.id).value.expiresAt == l.expiresAt
    ensures LicenseNamed(w', l.id).value.entitlements == l.entitlements
    ensures LicenseNamed(w', l.id).value.appId == l.appId
  {
    var i :| 0 <= i < |w.data.licenses| && w.data.licenses[i] == l;
    assert w'.data.licenses[i].id == l.id;
    assert LicenseById(w'.data.licenses, l.id) == i;
  }

  /** A licence held under a name that is no application's key, its ID say, is never granted anything. */
  lemma HeldUnderOtherName(r: Run, l: License, i: nat, j: nat)
    requires IsRun(r) && Valid(r.states[0]) && i <= j < |r.calls| && l in r.states[i].data.licenses
    requires forall a | a in r.states[j].data.apps :: a.appKey != l.appId
    requires r.answers[j].Verified? && r.answers[j].reply.Granted?
    ensures r.answers[j].reply.claims.licenseId != l.id
  {
    hide Valid, Grows, Step, ConsumedChallenge, ClaimsDevice;
    EveryGrantIsSound(r, j);
    RunKeeps(r, i, j);
    SameExpiry(r.states[i], r.states[j], l);
  }

  // ----- the version -----

  lemma GrantedVersion(w: World, req: Verification.Request, now: Time)
    requires Valid(w) && Verification.Verify(w, req, now).1.Granted?
    ensures var appId := Verification.Verify(w, req, now).1.claims.appId;
            !IntegrityCheck.Refused(
               Verification.ReportedRelease(w.data, appId, req.platform, req.integrity), req.integrity)
  {
    hide Verification.Verify, VerifyLaws.PassesGates, VerifyLaws.Heard, Verification.GateLicense,
      Verification.SeeDevice, Verification.GateDevice, Policies.BundleFor, IntegrityCheck.Denies,
      IntegrityCheck.Assess, IntegrityCheck.Signals, Verification.ReportedRelease, IntegrityCheck.Refused,
      VerifyLaws.ActivationsAfter, VerifyLaws.DeviceAfter, VerifyLaws.LicenseOf, VerifyLaws.DeviceOf, Valid;
    VerifyLaws.VerifyEffect(w, req, now);
    var l := VerifyLaws.LicenseOf(w, req, now);
    IntegrityCheck.DeniedIff(Verification.ReportedRelease(w.data, l.appId, req.platform, req.integrity), req.integrity);
  }

  /** No run grants a request from a version with a blocked row, or with anything else to refuse it for. */
  lemma NoGrantForRefusedVersion(r: Run, i: nat, row: Release)
    requires IsRun(r) && Valid(r.states[0]) && i < |r.calls|
    requires r.answers[i].Verified? && r.answers[i].reply.Granted? && row in r.states[i].data.releases
    ensures r.calls[i].command.Verify?
    ensures var req, c := r.calls[i].command.request, r.answers[i].reply.claims;
            && !IntegrityCheck.Refused(
                 Verification.ReportedRelease(r.states[i].data, c.appId, req.platform, req.integrity), req.integrity)
            && (req.integrity.appVersion == ""
                || !Releases.Matches(row, c.appId, req.platform, req.integrity.appVersion)
                || row.status != "blocked")
  {
    hide Step, Valid, Verification.Verify, Releases.FindRelease;
    RunKeeps(r, i, i);
    assert Stepped(r, i);
    ActivationLaws.StepAnswers(r.states[i], r.calls[i]);
    var req, c := r.calls[i].command.request, r.answers[i].reply.claims;
    GrantedVersion(r.states[i], req, r.calls[i].now);
    Releases.BlockedRowWins(r.states[i].data.releases, c.appId, req.platform, req.integrity.appVersion);
  }

  // ----- the token offline -----

  /** A granted token opens the application offline for thirty days at most, whatever the client keeps beside it. */
  lemma GrantedTokenOffline(r: Run, i: nat, key: OfflineSdk.PublicKey, cached: OfflineSdk.Cached, now: Time)
    requires IsRun(r) && Valid(r.states[0]) && i < |r.calls| && r.calls[i].now >= SECOND
    requires r.answers[i].Verified? && r.answers[i].reply.Granted?
    requires cached.token == r.answers[i].reply.claims
    requires OfflineSdk.Refusal(key, cached.token.appId, cached) == None
    ensures OfflineSdk.Allows(OfflineSdk.Authorize(Some(key), cached.token.appId, cached, now)) <==>
              now <= OfflineSdk.Max(cached.token.expiresAt, cached.token.graceUntil) * SECOND
    ensures OfflineSdk.Allows(OfflineSdk.Authorize(Some(key), cached.token.appId, cached, now)) ==>
              now <= r.calls[i].now + 30 * DAY
  {
    hide Step, Valid, OfflineSdk.Authorize, OfflineSdk.Refusal, OfflineSdk.Allows, Tokens.IssueClaims;
    var call := r.calls[i];
    ClaimsIssued(r, i);
    var c := cached.token;
    OfflineSdk.OfflineBound(r.states[i].data.settings, r.answers[i].reply.risk.level, c.appId, c.licenseId, c.deviceId,
                            c.entitlements, call.now, call.now, call.now, key, cached, now);
  }

  // ----- the bundle later in the run -----

  lemma {:induction false} PoliciesStand(r: Run, i: nat, j: nat)
    requires IsRun(r) && i <= j < |r.states|
    requires forall k | i <= k < j :: !ChangesPolicies(r.calls[k].command)
    ensures r.states[j].data.policies == r.states[i].data.policies
    decreases j
  {
    hide Step;
    if i < j {
      PoliciesStand(r, i, j - 1);
      StepPolicies(r.states[j - 1], r.calls[j - 1]);
      assert Stepped(r, j - 1);
    }
  }

  lemma StepPolicies(w: World, call: Call)
    requires !ChangesPolicies(call.command)
    ensures Step(w, call).0.data.policies == w.data.policies
  {
    hide Step, MayChange;
    StepFrame(w, call);
  }

  /**
   The bundle signed into a grant answers as a later online capability check for the same licence and application
   would, for as long as no request changes policies: except for names asked for untrimmed that are registered.
   */
  lemma BundleStaysAccurate(r: Run, i: nat, j: nat)
    requires IsRun(r) && Valid(r.states[0]) && i < j < |r.calls|
    requires r.answers[i].Verified? && r.answers[i].reply.Granted?
    requires forall k | i < k < j :: !ChangesPolicies(r.calls[k].command)
    requires r.calls[j].command.CapabilityCheck? && r.answers[j].Decided? && r.answers[j].decision.Some?
    requires r.calls[j].command.check.token.Some?
    requires var c, d := r.answers[i].reply.claims, r.calls[j].command.check.token.value;
             d.licenseId == c.licenseId && d.appId == c.appId
    ensures var asked := r.calls[j].command.check.capability;
            Policies.Agrees(r.answers[i].reply.bundle, r.answers[j].decision.value, asked)
            <==> Text.IsTrimmed(asked)
                 || Policies.Registered(r.states[j].data.policies, r.answers[i].reply.claims.appId,
                                        Text.TrimSpace(asked)).None?
  {
    hide Step, Valid, Grows, Policies.Agrees, Policies.BundleFor, Policies.OnlineDecision, Text.TrimSpace,
      Text.IsTrimmed, Policies.Registered, ConsumedChallenge, ClaimsDevice;
    var c := r.answers[i].reply.claims;
    ClaimsIssued(r, i);
    EveryGrantIsSound(r, i);
    RunKeeps(r, i, j);
    var l := LicenseNamed(r.states[i], c.licenseId).value;
    assert l in r.states[i].data.licenses;
    SameExpiry(r.states[i], r.states[j], l);
    GrantKeepsPolicies(r, i);
    PoliciesStand(r, i + 1, j);
    DecidedOnline(r, j);
    PoliciesValid(r.states[j]);
    Policies.BundleAgreesOnline(r.states[j].data.policies, c.appId, c.licenseId, c.deviceId, c.entitlements,
                                Unix(r.calls[i].now), c.expiresAt, r.calls[j].command.check.capability);
  }

  lemma GrantKeepsPolicies(r: Run, i: nat)
    requires IsRun(r) && i < |r.calls| && !ChangesPolicies(r.calls[i].command)
    ensures r.states[i + 1].data.policies == r.states[i].data.policies
  {
    PoliciesStand(r, i, i + 1);
  }

  lemma PoliciesValid(w: World)
    requires Valid(w)
    ensures Policies.UniqueKeys(w.data.policies) && Policies.TrimmedCapabilities(w.data.policies)
  {
  }

  /** The claims and the bundle of a grant, from the settings and policies of the moment. */
  lemma ClaimsIssued(r: Run, i: nat)
    requires IsRun(r) && i < |r.calls| && r.answers[i].Verified? && r.answers[i].reply.Granted?
    ensures var g := r.answers[i].reply;
            var c, now := g.claims, r.calls[i].now;
            && c == Tokens.IssueClaims(r.states[i].data.settings, g.risk.level, c.appId, c.licenseId, c.deviceId,
                                       c.entitlements, now, now, now)
            && g.bundle == Policies.BundleFor(r.states[i].data.policies, c.appId, c.licenseId, c.deviceId,
                                              c.entitlements, Unix(now), c.expiresAt)
  {
    hide Step;
    assert Stepped(r, i);
    ActivationLaws.StepAnswers(r.states[i], r.calls[i]);
    GrantIssues(r.states[i], r.calls[i].command.request, r.calls[i].now);
  }

  lemma GrantIssues(w: World, req: Verification.Request, now: Time)
    requires Verification.Verify(w, req, now).1.Granted?
    ensures var g := Verification.Verify(w, req, now).1;
            var c := g.claims;
            && c == Tokens.IssueClaims(w.data.settings, g.risk.level, c.appId, c.licenseId, c.deviceId,
                                       c.entitlements, now, now, now)
            && g.bundle == Policies.BundleFor(w.data.policies, c.appId, c.licenseId, c.deviceId,
                                              c.entitlements, Unix(now), c.expiresAt)
  {
    hide Verification.Verify, VerifyLaws.Heard, VerifyLaws.PassesGates, Policies.BundleFor, Tokens.Normalize,
      VerifyLaws.SignalsOf;
    VerifyLaws.VerifyEffect(w, req, now);
  }

  lemma DecidedOnline(r: Run, j: nat)
    requires IsRun(r) && j < |r.calls| && r.calls[j].command.CapabilityCheck?
    requires r.answers[j].Decided? && r.answers[j].decision.Some? && r.calls[j].command.check.token.Some?
    ensures var w, req := r.states[j], r.calls[j].command.check;
            var d := req.token.value;
            var l := LicenseNamed(w, d.licenseId);
            l.Some? && r.answers[j].decision.value
                       == Policies.OnlineDecision(w.data.policies, d.appId, l.value.entitlements, req.capability)
  {
    hide Step, Policies.OnlineDecision, Steps.CapabilityGate;
    var w, call := r.states[j], r.calls[j];
    assert Stepped(r, j);
    ActivationLaws.StepAnswers(w, call);
    if Steps.CapabilityGate(w, call.command.check, call.now) == Steps.Ok {
      CapabilityGateMeans(w, call.command.check, call.now);
    }
  }
}
