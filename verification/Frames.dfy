/** What each request can change, table by table, and what it leaves alone. */
module Frames {
  import opened Types
  import opened Lookup
  import opened World
  import opened Invariants
  import opened Machine
  import opened StepInvariants
  import Challenges
  import IntegrityCheck
  import Policies
  import RateLimit
  import Steps
  import Tokens
  import Verification

  /**
   The parts of the state. `LicenseNames` is how many licences there are and under which name each is filed;
   `LicenseRows` is all of them.
   */
  datatype Part =
    | AppRows | ReleaseRows | KeyRows | LicenseRows | LicenseNames | PolicyRows | DeviceRows | ActivationRows
    | ReportRows | EventRows | LogRows | SettingsRow | PendingChallenges | FailureCounts | FailureLimits | IssuedTokens

  /** What the gates of a verification and all behind them may change. */
  const GATED := {LicenseRows, DeviceRows, ActivationRows, ReportRows, EventRows, IssuedTokens}

  /** The parts a request of this kind may change. */
  function MayChange(c: Command): set<Part> {
    match c
    case SetRateLimit(_) => {FailureLimits, FailureCounts}
    case IssueChallenge(_) => {PendingChallenges, FailureCounts}
    case Verify(_) => GATED + {PendingChallenges, FailureCounts}
    case Heartbeat(_) => {DeviceRows, ActivationRows, ReportRows, EventRows}
    case CapabilityCheck(_) => {EventRows}
    case Deactivate(_) => {DeviceRows, ActivationRows, EventRows}
    case ActOnLicense(_, _) => {LicenseRows, ActivationRows, LogRows}
    case CreateLicense(_, _) => {LicenseRows, LicenseNames, LogRows}
    case ActOnDevice(_, _) => {DeviceRows, ActivationRows, LogRows}
    case ResolveRisk(_) => {EventRows, LogRows}
    case RotateKey(_) => {KeyRows, LogRows}
    case CreateApp(_, _, _, _, _) => {AppRows, ReleaseRows, KeyRows, PolicyRows, LogRows}
    case UpsertPolicies(_, _) => {PolicyRows, LogRows}
    case SeedDefaults(_) => {PolicyRows, LogRows}
    case UpdateSettings(_) => {SettingsRow, LogRows}
    case CreateRelease(_, _, _) => {ReleaseRows, LogRows}
    case PatchRelease(_, _, _) => {ReleaseRows, LogRows}
  }

  ghost predicate SameNames(a: seq<License>, b: seq<License>) {
    |b| == |a| && forall i | 0 <= i < |a| :: b[i].appId == a[i].appId
  }

  /** Nothing but these parts, and the next identifier, changes. */
  ghost predicate Framed(w: World, w': World, parts: set<Part>) {
    var d, d' := w.data, w'.data;
    && (AppRows !in parts ==> d'.apps == d.apps)
    && (ReleaseRows !in parts ==> d'.releases == d.releases)
    && (KeyRows !in parts ==> d'.sdkKeys == d.sdkKeys)
    && (LicenseRows !in parts ==> d'.licenses == d.licenses)
    && (LicenseNames !in parts ==> SameNames(d.licenses, d'.licenses))
    && (PolicyRows !in parts ==> d'.policies == d.policies)
    && (DeviceRows !in parts ==> d'.devices == d.devices)
    && (ActivationRows !in parts ==> d'.activations == d.activations)
    && (ReportRows !in parts ==> d'.reports == d.reports)
    && (EventRows !in parts ==> d'.riskEvents == d.riskEvents)
    && (LogRows !in parts ==> d'.auditLogs == d.auditLogs)
    && (SettingsRow !in parts ==> d'.settings == d.settings)
    && (PendingChallenges !in parts ==> w'.challenges == w.challenges)
    && (FailureCounts !in parts ==> w'.rates == w.rates)
    && (FailureLimits !in parts ==> w'.limits == w.limits)
    && (IssuedTokens !in parts ==> w'.issued == w.issued)
  }

  // ----- activate and verify -----

  lemma StopFramed(w: World, req: Verification.Request, now: Time)
    requires Verification.GateLicense(w.data, w.issued, req, now).Stop?
    ensures Framed(w, Verification.AfterStop(w, Verification.GateLicense(w.data, w.issued, req, now), now), GATED)
  {
    hide AppNamed, LicenseById, LicenseByKey, Verification.CheckLicense;
  }

  lemma BindFramed(w: World, req: Verification.Request, now: Time)
    requires Verification.GateLicense(w.data, w.issued, req, now).Pass?
    ensures Framed(w, Verification.Bind(w, req, Verification.GateLicense(w.data, w.issued, req, now), now).0, GATED)
  {
    hide Verification.GateLicense, Verification.GateDevice, Verification.SeeDevice, Verification.Examine,
      Verification.SignalsOn, IntegrityCheck.Denies, IntegrityCheck.Assess, Keeps;
    var g := Verification.GateLicense(w.data, w.issued, req, now);
    var appKey, l := w.data.apps[g.app].appKey, w.data.licenses[g.license];
    SeeDeviceMeans(w, req, now);
    var (w1, i) := Verification.SeeDevice(w, req, now);
    var v := w1.data.devices[i];
    var gate := Verification.GateDevice(w1.data, l, v, g.claims);
    if !gate.Turned? {
      var w2 := Verification.Activate(w1, gate, l.id, v.id, appKey, now);
      ExamineKeeps(w2, i, appKey, l.id, req.platform, req.integrity, now);
    }
  }

  lemma VerifyFramed(w: World, req: Verification.Request, now: Time)
    ensures Framed(w, Verification.Verify(w, req, now).0, GATED + {PendingChallenges, FailureCounts})
  {
    hide Verification.GateLicense, Verification.Bind, Verification.AfterStop, RateLimit.IsLimited, RateLimit.Record,
      Verification.ChallengeAccepted, SameNames;
    SameNamesSelf(w.data.licenses);
    if !RateLimit.IsLimited(w.limits, w.rates, Verification.RateKey(req), now) && !Verification.Blank(req)
       && Verification.ChallengeAccepted(w, req, now) {
      var w1 := w.(challenges := Challenges.Consume(w.challenges, req.challenge.value, now));
      if Verification.GateLicense(w1.data, w1.issued, req, now).Stop? {
        StopFramed(w1, req, now);
      } else {
        BindFramed(w1, req, now);
      }
    }
  }

  lemma SameNamesSelf(ls: seq<License>)
    ensures SameNames(ls, ls)
  {
  }

  // ----- the other client requests -----

  /** Touching a token's activation and device, or switching the activation off, changes just those lists. */
  lemma Touched(w: World, c: Claims, id: Id, now: Time)
    ensures var w' := Steps.TouchActivation(w, c, now); w' == w.(data := w.data.(activations := w'.data.activations))
    ensures var w' := Steps.SwitchOff(w, c, now); w' == w.(data := w.data.(activations := w'.data.activations))
    ensures var w' := Steps.TouchDevice(w, id, now); w' == w.(data := w.data.(devices := w'.data.devices))
  {
  }

  lemma BeatExamined(w: World, c: Claims, platform: string, i: Integrity, now: Time)
    ensures var w' := Steps.ExamineBeat(w, c, platform, i, now);
            w' == w.(data := w.data.(devices := w'.data.devices, reports := w'.data.reports,
                                     riskEvents := w'.data.riskEvents), nextId := w'.nextId)
  {
    hide Verification.LogSignals, Verification.SignalsOn, Verification.ReportedRelease, IntegrityCheck.Assess, Keeps;
    LogMeans(w, c.appId, c.deviceId, c.licenseId, Verification.SignalsOn(w.data, c.appId, platform, i), now);
  }

  lemma HeartbeatFramed(w: World, req: Steps.HeartbeatRequest, now: Time)
    ensures Framed(w, Steps.Heartbeat(w, req, now).0, {DeviceRows, ActivationRows, ReportRows, EventRows})
  {
    hide Steps.Evidence, Steps.WrongInstall, Steps.TokenGate, Steps.TouchActivation, Steps.TouchDevice,
      Steps.ExamineBeat, Verification.SignalsOn, IntegrityCheck.Denies, SameNames;
    SameNamesSelf(w.data.licenses);
    var c := req.token;
    var w1 := Steps.TouchActivation(w, c, now);
    var w2 := Steps.TouchDevice(w1, c.deviceId, now);
    Touched(w, c, c.deviceId, now);
    Touched(w1, c, c.deviceId, now);
    if Steps.Evidence(req).Some? {
      BeatExamined(w2, c, Steps.PlatformOf(w2, req), Steps.Evidence(req).value, now);
    }
  }

  lemma IssueChallengeFramed(w: World, req: Steps.ChallengeRequest, now: Time)
    ensures Framed(w, Steps.IssueChallenge(w, req, now).0, {PendingChallenges, FailureCounts})
  {
    hide RateLimit.Record, RateLimit.IsLimited, Challenges.Sweep, AppNamed;
  }

  lemma DeactivateFramed(w: World, req: Steps.DeactivateRequest, now: Time)
    ensures Framed(w, Steps.Deactivate(w, req, now).0, {DeviceRows, ActivationRows, EventRows})
  {
    hide Steps.TokenGate, Steps.WrongInstall, Steps.SwitchOff, Steps.TouchDevice;
    var c := req.token;
    Touched(w, c, c.deviceId, now);
    Touched(Steps.SwitchOff(w, c, now), c, c.deviceId, now);
  }

  lemma CapabilityCheckFramed(w: World, req: Steps.CapabilityRequest, now: Time)
    ensures Framed(w, Steps.CapabilityCheck(w, req, now).0, {EventRows})
  {
    hide Steps.CapabilityGate, Policies.OnlineDecision;
    if Steps.CapabilityGate(w, req, now) == Steps.Ok {
      CapabilityGateMeans(w, req, now);
    }
  }

  // ----- the admin's requests -----

  lemma ActOnLicenseFramed(w: World, id: Id, action: Steps.LicenseAction, admin: string, now: Time)
    ensures Framed(w, Steps.ActOnLicense(w, id, action, admin, now).0, {LicenseRows, ActivationRows, LogRows})
  {
    hide Steps.BlockActivations;
  }

  lemma CreateLicenseFramed(w: World, req: Steps.LicenseRequest, key: string, admin: string, now: Time)
    ensures Framed(w, Steps.CreateLicense(w, req, key, admin, now).0, {LicenseRows, LicenseNames, LogRows})
  {
    hide Steps.NewLicense, AppNamed;
  }

  lemma ActOnDeviceFramed(w: World, id: Id, action: Steps.DeviceAction, admin: string, now: Time)
    ensures Framed(w, Steps.ActOnDevice(w, id, action, admin, now).0, {DeviceRows, ActivationRows, LogRows})
  {
    hide Steps.UnbindActivations;
  }

  lemma ResolveRiskFramed(w: World, id: Id, admin: string, now: Time)
    ensures Framed(w, Steps.ResolveRisk(w, id, admin, now).0, {EventRows, LogRows})
  {
    hide RiskEventById;
  }

  lemma RotateKeyFramed(w: World, appId: string, admin: string, now: Time)
    ensures Framed(w, Steps.RotateKey(w, appId, admin, now).0, {KeyRows, LogRows})
  {
    hide Steps.RetireKeys, AppNamed;
  }

  lemma CreateAppFramed(w: World, id: string, appKey: string, name: string, platform: string, version: string,
                        admin: string, now: Time)
    ensures Framed(w, Steps.CreateApp(w, id, appKey, name, platform, version, admin, now).0,
                   {AppRows, ReleaseRows, KeyRows, PolicyRows, LogRows})
  {
    hide Steps.IsVisionFlow, Steps.FirstRelease, Policies.Seed, Policies.VisionFlowDefaults, AppNamed;
  }

  lemma PolicyRequestsFramed(w: World, appId: string, items: seq<Policy>, admin: string, now: Time)
    ensures Framed(w, Steps.UpsertPolicies(w, appId, items, admin, now).0, {PolicyRows, LogRows})
    ensures Framed(w, Steps.SeedDefaults(w, appId, admin, now).0, {PolicyRows, LogRows})
  {
    hide Steps.NormalizeAll, Policies.UpsertAll, Policies.Seed, Policies.VisionFlowDefaults, AppNamed;
  }

  lemma UpdateSettingsFramed(w: World, p: Steps.SettingsPatch, admin: string, now: Time)
    ensures Framed(w, Steps.UpdateSettings(w, p, admin, now).0, {SettingsRow, LogRows})
  {
    hide Steps.Patched, Tokens.Normalize;
  }

  lemma CreateReleaseFramed(w: World, appId: string, r: Release, validate: bool, admin: string, now: Time)
    ensures Framed(w, Steps.CreateRelease(w, appId, r, validate, admin, now).0, {ReleaseRows, LogRows})
  {
    hide Steps.MissingFields, AppNamed;
  }

  lemma PatchReleaseFramed(w: World, appId: string, id: Id, p: Steps.ReleasePatch, admin: string, now: Time)
    ensures Framed(w, Steps.PatchRelease(w, appId, id, p, admin, now).0, {ReleaseRows, LogRows})
  {
    hide Steps.MissingFields, Steps.PatchedRelease, ReleaseById;
  }

  lemma LimitsFramed(w: World, limits: RateLimit.Limits)
    ensures Framed(w, w.(limits := limits, rates := map[]), {FailureLimits, FailureCounts})
  {
  }

  /** Every request changes only the parts its kind may. */
  lemma StepFrame(w: World, call: Call)
    ensures Framed(w, Step(w, call).0, MayChange(call.command))
  {
    hide Framed, Verification.Verify, Steps.IssueChallenge, Steps.Heartbeat, Steps.CapabilityCheck, Steps.Deactivate,
      Steps.ActOnLicense, Steps.CreateLicense, Steps.ActOnDevice, Steps.ResolveRisk, Steps.RotateKey, Steps.CreateApp,
      Steps.UpsertPolicies, Steps.SeedDefaults, Steps.UpdateSettings, Steps.CreateRelease, Steps.PatchRelease;
    var now, admin := call.now, call.adminId;
    match call.command
    case SetRateLimit(limits) => LimitsFramed(w, limits);
    case IssueChallenge(req) => IssueChallengeFramed(w, req, now);
    case Verify(req) => VerifyFramed(w, req, now);
    case Heartbeat(req) => HeartbeatFramed(w, req, now);
    case CapabilityCheck(req) => CapabilityCheckFramed(w, req, now);
    case Deactivate(req) => DeactivateFramed(w, req, now);
    case ActOnLicense(id, action) => ActOnLicenseFramed(w, id, action, admin, now);
    case CreateLicense(req, key) => CreateLicenseFramed(w, req, key, admin, now);
    case ActOnDevice(id, action) => ActOnDeviceFramed(w, id, action, admin, now);
    case ResolveRisk(id) => ResolveRiskFramed(w, id, admin, now);
    case RotateKey(appId) => RotateKeyFramed(w, appId, admin, now);
    case CreateApp(id, appKey, name, platform, version) =>
      CreateAppFramed(w, id, appKey, name, platform, version, admin, now);
    case UpsertPolicies(appId, items) => PolicyRequestsFramed(w, appId, items, admin, now);
    case SeedDefaults(appId) => PolicyRequestsFramed(w, appId, [], admin, now);
    case UpdateSettings(patch) => UpdateSettingsFramed(w, patch, admin, now);
    case CreateRelease(appId, release, validate) => CreateReleaseFramed(w, appId, release, validate, admin, now);
    case PatchRelease(appId, id, patch) => PatchReleaseFramed(w, appId, id, patch, admin, now);
  }

  /** Which requests sign, draw or use challenges, and count failures. */
  lemma WhoMayChange(c: Command)
    ensures IssuedTokens in MayChange(c) ==> c.Verify?
    ensures PendingChallenges in MayChange(c) ==> c.Verify? || c.IssueChallenge?
    ensures FailureCounts in MayChange(c) ==> c.Verify? || c.IssueChallenge? || c.SetRateLimit?
    ensures FailureLimits in MayChange(c) ==> c.SetRateLimit?
  {
  }

  predicate ChangesPolicies(c: Command) {
    PolicyRows in MayChange(c)
  }

  // ----- what may be switched on -----

  /** No activation appears, and none that was off is on. */
  ghost predicate NoneSwitchedOn(a: seq<Activation>, b: seq<Activation>) {
    && |a| == |b|
    && forall k | 0 <= k < |a| ::
         SameActivation(a[k], b[k]) && (b[k].status == ActivationActive ==> a[k].status == ActivationActive)
  }

  /** A heartbeat leaves activations as they are, or its own one touched. */
  lemma HeartbeatActivations(w: World, req: Steps.HeartbeatRequest, now: Time)
    ensures Steps.Heartbeat(w, req, now).0.data.activations
            in [w.data.activations, Steps.TouchActivation(w, req.token, now).data.activations]
  {
    hide Steps.Evidence, Steps.WrongInstall, Steps.TokenGate, Steps.TouchActivation, Steps.TouchDevice,
      Steps.ExamineBeat, Verification.SignalsOn, IntegrityCheck.Denies;
    var c := req.token;
    var w1 := Steps.TouchActivation(w, c, now);
    var w2 := Steps.TouchDevice(w1, c.deviceId, now);
    Touched(w1, c, c.deviceId, now);
    if Steps.Evidence(req).Some? {
      BeatExamined(w2, c, Steps.PlatformOf(w2, req), Steps.Evidence(req).value, now);
    }
  }

  lemma HeartbeatSwitchesNothingOn(w: World, req: Steps.HeartbeatRequest, now: Time)
    ensures NoneSwitchedOn(w.data.activations, Steps.Heartbeat(w, req, now).0.data.activations)
  {
    hide Steps.Heartbeat;
    HeartbeatActivations(w, req, now);
  }

  lemma DeactivateSwitchesNothingOn(w: World, req: Steps.DeactivateRequest, now: Time)
    ensures NoneSwitchedOn(w.data.activations, Steps.Deactivate(w, req, now).0.data.activations)
  {
    hide Steps.TokenGate, Steps.WrongInstall;
  }

  lemma LicenseActionSwitchesNothingOn(w: World, id: Id, action: Steps.LicenseAction, admin: string, now: Time)
    ensures NoneSwitchedOn(w.data.activations, Steps.ActOnLicense(w, id, action, admin, now).0.data.activations)
  {
  }

  lemma DeviceActionSwitchesNothingOn(w: World, id: Id, action: Steps.DeviceAction, admin: string, now: Time)
    ensures NoneSwitchedOn(w.data.activations, Steps.ActOnDevice(w, id, action, admin, now).0.data.activations)
  {
  }

  /** No admin action and no client request but activate and verify switches an activation on or signs a token. */
  lemma OthersSwitchNothingOn(w: World, call: Call)
    requires !call.command.Verify?
    ensures NoneSwitchedOn(w.data.activations, Step(w, call).0.data.activations)
    ensures Step(w, call).0.issued == w.issued
  {
    hide Step, NoneSwitchedOn, MayChange;
    StepFrame(w, call);
    WhoMayChange(call.command);
    if ActivationRows in MayChange(call.command) {
      SwitchersSwitchNothingOn(w, call);
    } else {
      NoneSwitched(w.data.activations);
    }
  }

  lemma SwitchersSwitchNothingOn(w: World, call: Call)
    requires !call.command.Verify? && ActivationRows in MayChange(call.command)
    ensures NoneSwitchedOn(w.data.activations, Step(w, call).0.data.activations)
  {
    hide NoneSwitchedOn, Steps.Heartbeat, Steps.Deactivate, Steps.ActOnLicense, Steps.ActOnDevice;
    var now, admin := call.now, call.adminId;
    match call.command
    case Heartbeat(req) => HeartbeatSwitchesNothingOn(w, req, now);
    case Deactivate(req) => DeactivateSwitchesNothingOn(w, req, now);
    case ActOnLicense(id, action) => LicenseActionSwitchesNothingOn(w, id, action, admin, now);
    case ActOnDevice(id, action) => DeviceActionSwitchesNothingOn(w, id, action, admin, now);
    case _ =>
  }

  lemma NoneSwitched(a: seq<Activation>)
    ensures NoneSwitchedOn(a, a)
  {
  }

  // ----- what a challenge request changes -----

  /** It may add its own entry and change its caller's count; other entries stay or are swept. */
  ghost predicate IssueFrame(w: World, w': World, req: Steps.ChallengeRequest, s: Steps.Status, now: Time) {
    && (forall id | id in w'.challenges ::
          || (id in w.challenges && w'.challenges[id] == w.challenges[id])
          || (s == Steps.Ok && id == w.nextId
              && w'.challenges[id] == Challenge(req.nonce, req.appId, req.installId, now + Challenges.LIFETIME, now)))
    && (forall k: RateLimit.Key | k.endpoint != RateLimit.Challenging ::
          (k in w'.rates <==> k in w.rates) && (k in w.rates ==> w'.rates[k] == w.rates[k]))
  }

  lemma IssueChallengeFrame(w: World, req: Steps.ChallengeRequest, now: Time)
    ensures var (w', s) := Steps.IssueChallenge(w, req, now);
            IssueFrame(w, w', req, s, now)
  {
    hide RateLimit.IsLimited, RateLimit.InWindow;
  }
}
