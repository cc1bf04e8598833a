/** Activation and verification: one request through challenge, licence, device and integrity gates. */
module Verification {
  import opened Types
  import opened Lookup
  import opened World
  import opened IntegrityCheck
  import Challenges
  import Policies
  import RateLimit
  import Releases
  import Tokens

  /**
   `challenge` and `token` are None for an empty string; a challenge never issued is an identifier not in the
   table, a forged token is claims not among those issued. `caller` is the rate-limit key after its endpoint.
   */
  datatype Request = Request(
    endpoint: RateLimit.Endpoint, caller: string, appId: string, platform: string, licenseKey: string,
    token: Option<Claims>, challenge: Option<Id>, nonce: string, installId: string, fingerprint: string,
    osVersion: string, machineName: string, integrity: Integrity)

  datatype Code =
    | RateLimited | InvalidRequest | ChallengeInvalid | AppNotActive | InvalidToken | LicenseRequired
    | InvalidLicense | LicenseNotActive(status: LicenseStatus) | LicenseExpired | AppMismatched | BlockedDevice
    | DeviceMismatched | TokenDeactivated | LimitExceeded | IntegrityFailed

  datatype Reply =
    | Failed(code: Code)
    | Denied(code: Code, risk: RiskResult)
    | Granted(claims: Claims, bundle: Option<Bundle>, deviceStatus: DeviceStatus, risk: RiskResult)

  function RateKey(req: Request): RateLimit.Key {
    RateLimit.Key(req.endpoint, req.caller)
  }

  predicate Blank(req: Request) {
    req.appId == "" || req.challenge.None? || req.nonce == "" || req.installId == "" || req.fingerprint == ""
  }

  /** The fixed risk result each refusal is sent with. */
  function RefusalRisk(code: Code): RiskResult {
    match code
    case ChallengeInvalid => RiskResult(Medium, 50, [Deny])
    case AppNotActive => RiskResult(High, 90, [Deny])
    case InvalidToken => RiskResult(Medium, 55, [Deny])
    case LicenseRequired => RiskResult(Medium, 55, [Deny])
    case InvalidLicense => RiskResult(High, 82, [Deny])
    case LicenseNotActive(_) => RiskResult(High, 85, [Deny])
    case LicenseExpired => RiskResult(Medium, 65, [Deny])
    case AppMismatched => RiskResult(High, 92, [Deny])
    case BlockedDevice => RiskResult(High, 90, [Deny])
    case DeviceMismatched => RiskResult(High, 92, [Deny])
    case TokenDeactivated => RiskResult(Medium, 60, [Deny])
    case LimitExceeded => RiskResult(Medium, 58, [Review])
    case _ => RiskResult(High, 90, [Deny])
  }

  // ----- the application and the licence -----

  /** What the application and licence gates find: indices into the stored lists. */
  datatype LicenseGate =
    | Pass(app: nat, license: nat, claims: Option<Claims>)
    | Stop(code: Code, app: nat, license: nat)

  function CheckLicense(d: Data, app: nat, license: nat, claims: Option<Claims>, now: Time): (g: LicenseGate)
    requires app < |d.apps| && license <= |d.licenses|
    ensures g.app == app && g.license == license
  {
    if license == |d.licenses| || d.licenses[license].appId != d.apps[app].appKey then Stop(InvalidLicense, app, license)
    else if d.licenses[license].status != Active then
      Stop(LicenseNotActive(d.licenses[license].status), app, license)
    else if now > d.licenses[license].expiresAt then Stop(LicenseExpired, app, license)
    else if claims.Some? && claims.value.appId != d.apps[app].appKey then Stop(AppMismatched, app, license)
    else Pass(app, license, claims)
  }

  /** A licence key takes precedence over a token; a token's own expiry is not looked at. */
  function GateLicense(d: Data, issued: set<Claims>, req: Request, now: Time): (g: LicenseGate)
    ensures g.Pass? ==> g.app < |d.apps| && g.license < |d.licenses|
    ensures g.Stop? && g.code == LicenseExpired ==> g.license < |d.licenses|
    ensures g.Stop? && g.code == AppMismatched ==> g.app < |d.apps| && g.license < |d.licenses|
  {
    var app := AppNamed(d.apps, req.appId);
    if app == |d.apps| || d.apps[app].status != AppActive then Stop(AppNotActive, app, 0)
    else if req.licenseKey != "" then CheckLicense(d, app, LicenseByKey(d.licenses, req.licenseKey), None, now)
    else if req.token.Some? then
      if req.token.value !in issued then Stop(InvalidToken, app, 0)
      else CheckLicense(d, app, LicenseById(d.licenses, req.token.value.licenseId), req.token, now)
    else Stop(LicenseRequired, app, 0)
  }

  /** What a refusal at these gates leaves behind. */
  function AfterStop(w: World, g: LicenseGate, now: Time): World
    requires g.Stop?
    requires g.code == LicenseExpired ==> g.license < |w.data.licenses|
    requires g.code == AppMismatched ==> g.app < |w.data.apps| && g.license < |w.data.licenses|
  {
    if g.code == LicenseExpired then WithLicense(w, g.license, w.data.licenses[g.license].(status := Expired))
    else if g.code == AppMismatched then
      WithRisk(w, w.data.apps[g.app].appKey, None, w.data.licenses[g.license].id, TokenAppMismatch, High, DenyAction, now)
    else w
  }

  // ----- the device and its activation -----

  /** The state with the device known and seen, and the device's index. */
  function SeeDevice(w: World, req: Request, now: Time): (r: (World, nat))
    ensures r.1 < |r.0.data.devices|
  {
    var i := DeviceByFingerprint(w.data.devices, Sha256(req.fingerprint));
    if i < |w.data.devices| then
      (WithDevice(w, i, w.data.devices[i].(
        osVersion := req.osVersion, machineName := Sha256(req.machineName), lastSeenAt := now)), i)
    else
      (AddDevice(w, Device(w.nextId, Sha256(req.fingerprint), Sha256(req.installId), req.platform, req.osVersion,
        Sha256(req.machineName), 10, DeviceActive, now, now)), i)
  }

  datatype DeviceGate =
    | Turned(code: Code, eventType: EventType, severity: Severity)
    | Fresh
    | Known(activation: nat)

  function GateDevice(d: Data, l: License, v: Device, claims: Option<Claims>): (g: DeviceGate)
    ensures g.Known? ==> g.activation < |d.activations|
  {
    var a := ActivationFor(d.activations, l.id, v.id);
    if v.status == DeviceBlocked then Turned(BlockedDevice, DeviceIsBlocked, High)
    else if claims.Some? && claims.value.deviceId != v.id then Turned(DeviceMismatched, TokenDeviceMismatch, High)
    else if claims.Some? && (a == |d.activations| || d.activations[a].status != ActivationActive) then
      Turned(TokenDeactivated, TokenActivationInactive, Medium)
    else if a < |d.activations| then Known(a)
    else if |ActiveDevices(d.activations, l.id)| >= l.maxDevices then Turned(LimitExceeded, DeviceLimitExceeded, Medium)
    else Fresh
  }

  /** A new activation, or the known one switched (back) on: its status is written whatever it was. */
  function Activate(w: World, g: DeviceGate, licenseId: Id, deviceId: Id, appKey: string, now: Time): World
    requires g.Fresh? || (g.Known? && g.activation < |w.data.activations|)
  {
    if g.Fresh? then
      AddActivation(w, Activation(w.nextId, licenseId, deviceId, appKey, ActivationActive, now, now, None))
    else
      var a := w.data.activations[g.activation].(status := ActivationActive, lastVerifiedAt := now);
      WithActivations(w, w.data.activations[g.activation := a])
  }

  // ----- integrity -----

  function LogSignals(w: World, appId: string, deviceId: Id, licenseId: Id, signals: seq<Signal>, now: Time): World {
    if signals == [] then w
    else
      var s := signals[|signals| - 1];
      WithRisk(LogSignals(w, appId, deviceId, licenseId, signals[..|signals| - 1], now),
               appId, Some(deviceId), licenseId, s.eventType, s.answer.Severity(), s.answer.EventAction(), now)
  }

  function ReportedRelease(d: Data, appId: string, platform: string, i: Integrity): Option<Release> {
    if i.appVersion == "" then None
    else Releases.ReleaseAt(d.releases, Releases.FindRelease(d.releases, appId, platform, i.appVersion))
  }

  function SignalsOn(d: Data, appId: string, platform: string, i: Integrity): seq<Signal> {
    Signals(ReportedRelease(d, appId, platform, i), i)
  }

  /** The events logged, the device's score and time of last sight, and the report filed. */
  function Examine(w: World, device: nat, appId: string, licenseId: Id, platform: string, i: Integrity, now: Time): World
    requires device < |w.data.devices|
  {
    var v := w.data.devices[device];
    var signals := SignalsOn(w.data, appId, platform, i);
    var release := ReportedRelease(w.data, appId, platform, i);
    var w1 := LogSignals(w, appId, v.id, licenseId, signals, now);
    LogKeepsDevices(w, appId, v.id, licenseId, signals, now);
    var w2 := WithDevice(w1, device, v.(riskScore := Assess(signals).score, lastSeenAt := now));
    WithReport(w2, appId, v.id, if release.Some? then Some(release.value.id) else None, platform, i, now)
  }

  lemma {:induction false} LogKeepsDevices(w: World, appId: string, deviceId: Id, licenseId: Id,
                                           signals: seq<Signal>, now: Time)
    ensures var w' := LogSignals(w, appId, deviceId, licenseId, signals, now);
            w'.data.devices == w.data.devices
  {
    if signals != [] {
      LogKeepsDevices(w, appId, deviceId, licenseId, signals[..|signals| - 1], now);
    }
  }

  // ----- the grant -----

  function GrantedClaims(w: World, l: License, deviceId: Id, appKey: string, level: Severity, now: Time): Claims {
    Tokens.IssueClaims(w.data.settings, level, appKey, l.id, deviceId, l.entitlements, now, now, now)
  }

  function Grant(w: World, l: License, v: Device, appKey: string, risk: RiskResult, now: Time): (World, Reply) {
    var c := GrantedClaims(w, l, v.id, appKey, risk.level, now);
    var bundle := Policies.BundleFor(w.data.policies, appKey, l.id, v.id, l.entitlements, Unix(now), c.expiresAt);
    (w.(issued := w.issued + {c}), Granted(c, bundle, v.status, risk))
  }

  // ----- the stages in sequence -----

  /** From the device lookup to the reply, for a licence that passed its gates. */
  function Bind(w: World, req: Request, g: LicenseGate, now: Time): (World, Reply)
    requires g.Pass? && g.app < |w.data.apps| && g.license < |w.data.licenses|
  {
    var appKey, l := w.data.apps[g.app].appKey, w.data.licenses[g.license];
    var (w1, i) := SeeDevice(w, req, now);
    var v := w1.data.devices[i];
    match GateDevice(w1.data, l, v, g.claims)
    case Turned(code, eventType, severity) =>
      (WithRisk(w1, appKey, Some(v.id), l.id, eventType, severity, DenyAction, now), Denied(code, RefusalRisk(code)))
    case gate =>
      var w2 := Activate(w1, gate, l.id, v.id, appKey, now);
      var signals := SignalsOn(w2.data, appKey, req.platform, req.integrity);
      var w3 := Examine(w2, i, appKey, l.id, req.platform, req.integrity, now);
      if Denies(signals) then (w3, Denied(IntegrityFailed, Assess(signals)))
      else Grant(w3, l, v, appKey, Assess(signals), now)
  }

  predicate ChallengeAccepted(w: World, req: Request, now: Time)
    requires req.challenge.Some?
  {
    Challenges.Judge(w.challenges, req.appId, req.installId, req.challenge.value, req.nonce, now) == Challenges.Accepted
  }

  /** Everything under the lock after the rate limiter let the request through. */
  function Attempt(w: World, req: Request, now: Time): (World, Reply)
    requires req.challenge.Some?
  {
    var w1 := w.(challenges := Challenges.Consume(w.challenges, req.challenge.value, now));
    if !ChallengeAccepted(w, req, now) then (w1, Denied(ChallengeInvalid, RefusalRisk(ChallengeInvalid)))
    else
      var g := GateLicense(w1.data, w1.issued, req, now);
      if g.Stop? then (AfterStop(w1, g, now), Denied(g.code, RefusalRisk(g.code)))
      else Bind(w1, req, g, now)
  }

  /** One activate or verify request: rate limit, the attempt, and its failure or success on the limiter's record. */
  function Verify(w: World, req: Request, now: Time): (World, Reply) {
    var k := RateKey(req);
    if RateLimit.IsLimited(w.limits, w.rates, k, now) then (w, Failed(RateLimited))
    else if Blank(req) then (w.(rates := RateLimit.Record(w.limits, w.rates, k, now)), Failed(InvalidRequest))
    else
      var (w', reply) := Attempt(w, req, now);
      if reply.Granted? then (w'.(rates := RateLimit.Reset(w'.rates, k)), reply)
      else (w'.(rates := RateLimit.Record(w'.limits, w'.rates, k, now)), reply)
  }
}
