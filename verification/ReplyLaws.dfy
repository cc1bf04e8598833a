/** What an activate or verify request is answered, and everything it leaves behind, in plain terms. */
module ReplyLaws {
  import opened Types
  import opened Lookup
  import opened World
  import opened Invariants
  import opened Machine
  import opened Verification
  import Challenges
  import DecisionLaws
  import IntegrityCheck
  import RateLimit
  import Releases
  import StepInvariants
  import VerifyLaws

  // ----- the first reason for a refusal -----

  /** The caller has used up its failures in the window that began with its first one. */
  predicate Exhausted(w: World, req: Request, now: Time) {
    var k := RateKey(req);
    && w.limits.failures > 0 && w.limits.window > 0
    && k in w.rates && now < w.rates[k].start + w.limits.window && w.rates[k].failures >= w.limits.failures
  }

  predicate Incomplete(req: Request) {
    "" in {req.appId, req.nonce, req.installId, req.fingerprint} || req.challenge.None?
  }

  /** A pending challenge, not past its time, drawn for this application, installation and nonce. */
  predicate ChallengeGood(w: World, req: Request, now: Time)
    requires req.challenge.Some?
  {
    && req.challenge.value in w.challenges
    && var c := w.challenges[req.challenge.value];
       c.appId == req.appId && c.installId == req.installId && c.nonce == req.nonce && now <= c.expiresAt
  }

  predicate AppUsable(w: World, req: Request) {
    var app := AppNamed(w.data.apps, req.appId);
    app < |w.data.apps| && w.data.apps[app].status == AppActive
  }

  /** Why application or licence are refused; a licence key takes precedence over a token. */
  function LicenseRefusal(w: World, req: Request, now: Time): Option<Code> {
    if !AppUsable(w, req) then Some(AppNotActive)
    else if req.licenseKey == "" && req.token.None? then Some(LicenseRequired)
    else if req.licenseKey == "" && req.token.value !in w.issued then Some(InvalidToken)
    else
      var l, app := DecisionLaws.Presented(w, req), w.data.apps[AppNamed(w.data.apps, req.appId)];
      if l.None? || l.value.appId != app.appKey then Some(InvalidLicense)
      else if l.value.status != Active then Some(LicenseNotActive(l.value.status))
      else if now > l.value.expiresAt then Some(LicenseExpired)
      else None
  }

  /** The stored device with the fingerprint presented. */
  ghost predicate IsDeviceOf(w: World, req: Request, v: Device) {
    v in w.data.devices && v.fingerprint == Sha256(req.fingerprint)
  }

  ghost predicate PairStored(w: World, req: Request, l: License) {
    exists v, a | v in w.data.devices && a in w.data.activations ::
      v.fingerprint == Sha256(req.fingerprint) && a.licenseId == l.id && a.deviceId == v.id
  }

  /** Why the device is refused, for a licence that is not. */
  ghost function DeviceRefusal(w: World, req: Request, l: License): Option<Code> {
    var byToken := req.licenseKey == "" && req.token.Some?;
    if exists v :: IsDeviceOf(w, req, v) && v.status == DeviceBlocked then Some(BlockedDevice)
    else if byToken && !exists v :: IsDeviceOf(w, req, v) && v.id == req.token.value.deviceId then Some(DeviceMismatched)
    else if byToken && !exists a | a in w.data.activations ::
      a.licenseId == l.id && a.deviceId == req.token.value.deviceId && a.status == ActivationActive
    then Some(TokenDeactivated)
    else if !byToken && !PairStored(w, req, l) && |ActiveDevices(w.data.activations, l.id)| >= l.maxDevices
    then Some(LimitExceeded)
    else None
  }

  /** The first reason to refuse a request, if there is any. */
  ghost function Refusal(w: World, req: Request, now: Time): Option<Code> {
    if Exhausted(w, req, now) then Some(RateLimited)
    else if Incomplete(req) then Some(InvalidRequest)
    else if !ChallengeGood(w, req, now) then Some(ChallengeInvalid)
    else if LicenseRefusal(w, req, now).Some? then LicenseRefusal(w, req, now)
    else
      var l := DecisionLaws.Presented(w, req).value;
      if DeviceRefusal(w, req, l).Some? then DeviceRefusal(w, req, l)
      else if IntegrityCheck.Refused(ReportedRelease(w.data, l.appId, req.platform, req.integrity), req.integrity)
      then Some(IntegrityFailed)
      else None
  }

  lemma LicenseGateTells(w: World, req: Request, now: Time)
    requires Valid(w)
    ensures var g := GateLicense(w.data, w.issued, req, now);
            && (g.Pass? <==> LicenseRefusal(w, req, now).None?)
            && (g.Stop? ==> LicenseRefusal(w, req, now) == Some(g.code))
            && (g.Pass? ==> DecisionLaws.Presented(w, req) == Some(w.data.licenses[g.license])
                            && g.claims == if req.licenseKey != "" then None else req.token)
    ensures GateLicense(w.data, w.issued, req, now).Stop? ==>
              GateLicense(w.data, w.issued, req, now).code != AppMismatched
  {
    if req.licenseKey == "" && req.token.Some? && req.token.value in w.issued {
      assert Backed(req.token.value, w.data.licenses, w.data.activations);
    }
  }

  lemma DeviceGateTells(w: World, req: Request, l: License, now: Time)
    requires Valid(w) && l in w.data.licenses
    requires req.licenseKey == "" ==> req.token.Some? && req.token.value in w.issued
    requires req.licenseKey == "" ==> req.token.value.licenseId == l.id
    ensures var (w1, i) := SeeDevice(w, req, now);
            var g := GateDevice(w1.data, l, w1.data.devices[i], if req.licenseKey != "" then None else req.token);
            && (g.Turned? <==> DeviceRefusal(w, req, l).Some?)
            && (g.Turned? ==> DeviceRefusal(w, req, l) == Some(g.code))
  {
    hide ActiveDevices, LicensesOk, EventsOk, LogsOk, PoliciesOk, IssuedOk, ChallengesOk, KeysOk, Refers, AppsOk, FiledOk,
      ReleasesOk;
    var d, i := w.data, DeviceByFingerprint(w.data.devices, Sha256(req.fingerprint));
    if i < |d.devices| {
      var v := d.devices[i];
      assert v in d.devices;
      DecisionLaws.OneOfFingerprint(d.devices, w.nextId, i);
      var a := ActivationFor(d.activations, l.id, v.id);
      if a < |d.activations| {
        assert d.activations[a] in d.activations;
        OnlyPair(w, a);
      }
    } else {
      DecisionLaws.NoActivationOfNewDevice(w, l.id);
      if req.licenseKey == "" {
        TokenDevice(w, req.token.value);
      }
    }
  }

  lemma OnlyPair(w: World, k: nat)
    requires Valid(w) && k < |w.data.activations|
    ensures forall a | a in w.data.activations && a.licenseId == w.data.activations[k].licenseId
                       && a.deviceId == w.data.activations[k].deviceId :: a == w.data.activations[k]
  {
    hide Refers;
  }

  /** A signed token names a stored device. */
  lemma TokenDevice(w: World, c: Claims)
    requires Valid(w) && c in w.issued
    ensures c.deviceId < w.nextId
  {
    var d := w.data;
    assert Backed(c, d.licenses, d.activations);
    var a := d.activations[ActivationFor(d.activations, c.licenseId, c.deviceId)];
    assert Refers(a, d.licenses, d.devices);
  }

  lemma LaterReasons(w: World, req: Request, now: Time)
    ensures LicenseRefusal(w, req, now) !in {Some(RateLimited), Some(InvalidRequest)}
    ensures forall l :: DeviceRefusal(w, req, l) !in {Some(RateLimited), Some(InvalidRequest)}
  {
  }

  /** The answer of every request: granted without a reason to refuse it, else refused for the first. */
  lemma RepliedAs(w: World, req: Request, now: Time)
    requires Valid(w)
    ensures var reply := Verification.Verify(w, req, now).1;
            match Refusal(w, req, now)
            case None => reply.Granted?
            case Some(c) =>
              if c in {RateLimited, InvalidRequest} then reply == Failed(c) else reply.Denied? && reply.code == c
  {
    hide Valid, LicenseRefusal, DeviceRefusal, GateLicense, GateDevice, SeeDevice, Examine, SignalsOn, Activate,
      IntegrityCheck.Refused, IntegrityCheck.Denies, IntegrityCheck.Assess, ReportedRelease, AfterStop, RefusalRisk,
      Grant, RateLimit.Record, Challenges.Consume;
    if !Exhausted(w, req, now) && !Incomplete(req) && ChallengeGood(w, req, now) {
      var w1 := w.(challenges := Challenges.Consume(w.challenges, req.challenge.value, now));
      LicenseGateTells(w, req, now);
      LaterReasons(w, req, now);
      var g := GateLicense(w1.data, w1.issued, req, now);
      if g.Pass? {
        BoundAs(w, w1, req, g, now);
      }
    }
  }

  lemma BoundAs(w: World, w1: World, req: Request, g: LicenseGate, now: Time)
    requires Valid(w) && w1 == w.(challenges := w1.challenges)
    requires g == GateLicense(w.data, w.issued, req, now) && g.Pass?
    ensures var reply, l := Bind(w1, req, g, now).1, DecisionLaws.Presented(w, req).value;
            if DeviceRefusal(w, req, l).Some? then reply.Denied? && Some(reply.code) == DeviceRefusal(w, req, l)
            else if IntegrityCheck.Refused(ReportedRelease(w.data, l.appId, req.platform, req.integrity), req.integrity)
            then reply.Denied? && reply.code == IntegrityFailed
            else reply.Granted?
  {
    hide Valid, LicenseRefusal, DeviceRefusal, GateLicense, GateDevice, SeeDevice, Examine, SignalsOn, Activate,
      IntegrityCheck.Refused, IntegrityCheck.Denies, IntegrityCheck.Assess, ReportedRelease, RefusalRisk, Grant;
    LicenseGateTells(w, req, now);
    StepInvariants.PassMeans(w.data, w.issued, req, now);
    var l := w.data.licenses[g.license];
    DeviceGateTells(w, req, l, now);
    VerifyLaws.SameSight(w, w1, req, now);
    SignalsAfter(w1, req, g, now);
    IntegrityCheck.DeniedIff(ReportedRelease(w.data, l.appId, req.platform, req.integrity), req.integrity);
    GrantGrants();
  }

  lemma GrantGrants()
    ensures forall w, l, v, k, r, n :: Grant(w, l, v, k, r, n).1.Granted?
  {
  }

  /** The evaluator sees the releases of the state the request came to. */
  lemma SignalsAfter(w1: World, req: Request, g: LicenseGate, now: Time)
    requires g.Pass? && g.app < |w1.data.apps| && g.license < |w1.data.licenses|
    ensures var appKey, l := w1.data.apps[g.app].appKey, w1.data.licenses[g.license];
            var (w2, i) := SeeDevice(w1, req, now);
            var v := w2.data.devices[i];
            var gate := GateDevice(w2.data, l, v, g.claims);
            !gate.Turned? ==>
              SignalsOn(Activate(w2, gate, l.id, v.id, appKey, now).data, appKey, req.platform, req.integrity)
              == IntegrityCheck.Signals(ReportedRelease(w1.data, appKey, req.platform, req.integrity), req.integrity)
  {
    hide GateDevice, IntegrityCheck.Signals;
  }

  // ----- what the reply says -----

  /** How a refusal is reproached, the evaluator's own aside. */
  function Reproach(code: Code): int {
    match code
    case ChallengeInvalid => 50
    case AppNotActive => 90
    case InvalidToken => 55
    case LicenseRequired => 55
    case InvalidLicense => 82
    case LicenseNotActive(_) => 85
    case LicenseExpired => 65
    case BlockedDevice => 90
    case DeviceMismatched => 92
    case TokenDeactivated => 60
    case LimitExceeded => 58
    case AppMismatched => 92
    case _ => 90
  }

  /** A refusal is graded as a score of its weight would be, and denies; one for want of room asks for a review. */
  lemma RefusalGraded(code: Code)
    ensures var r := RefusalRisk(code);
            && r.score == Reproach(code)
            && (r.level == High <==> r.score >= 80) && (r.level == Low <==> r.score < 45)
            && r.actions == [if code == LimitExceeded then IntegrityCheck.Review else IntegrityCheck.Deny]
  {
  }

  /** The risk sent with an answer: the evaluator's for a granted request or one refused for its report. */
  lemma RiskTold(w: World, req: Request, now: Time)
    requires Valid(w)
    ensures var reply := Verification.Verify(w, req, now).1;
            && (reply.Denied? && reply.code != IntegrityFailed ==> reply.risk == RefusalRisk(reply.code))
            && (reply.Granted? || (reply.Denied? && reply.code == IntegrityFailed) ==>
                  && DecisionLaws.Presented(w, req).Some?
                  && reply.risk == IntegrityCheck.Assess(IntegrityCheck.Signals(
                       ReportedRelease(w.data, DecisionLaws.Presented(w, req).value.appId, req.platform, req.integrity),
                       req.integrity)))
            && (reply.Granted? ==> reply.deviceStatus == DeviceActive)
  {
    hide Valid, GateLicense, GateDevice, SeeDevice, Examine, Activate, IntegrityCheck.Signals, IntegrityCheck.Denies,
      IntegrityCheck.Assess, ReportedRelease, AfterStop, RefusalRisk, RateLimit.Record, RateLimit.IsLimited,
      ChallengeAccepted, DecisionLaws.Presented, LicenseRefusal, GrantedClaims;
    if !RateLimit.IsLimited(w.limits, w.rates, RateKey(req), now) && !Blank(req) && ChallengeAccepted(w, req, now) {
      var w1 := w.(challenges := Challenges.Consume(w.challenges, req.challenge.value, now));
      LicenseGateTells(w, req, now);
      var g := GateLicense(w1.data, w1.issued, req, now);
      if g.Pass? {
        StepInvariants.PassMeans(w.data, w.issued, req, now);
        SignalsAfter(w1, req, g, now);
        var (w2, i) := SeeDevice(w1, req, now);
        VerifyLaws.GateShape(w2.data, w.data.licenses[g.license], w2.data.devices[i], g.claims);
      } else {
        VerifyLaws.StopCodes(w1.data, w1.issued, req, now);
      }
    }
  }

  /** The release a report names: the first blocked row of its version filed there, else the first, if there is any. */
  lemma ReportedTells(d: Data, appId: string, platform: string, i: Integrity)
    ensures var r := ReportedRelease(d, appId, platform, i);
            && (r.None? <==> i.appVersion == ""
                             || forall x | x in d.releases :: !Releases.IsRow(x, appId, platform, i.appVersion))
            && (r.Some? ==> r.value in d.releases && Releases.IsRow(r.value, appId, platform, i.appVersion))
            && (r.Some? && r.value.status != "blocked" ==>
                  forall x | x in d.releases && Releases.IsRow(x, appId, platform, i.appVersion) :: x.status != "blocked")
  {
    hide Releases.FindRelease;
    Releases.FindTells(d.releases, appId, platform, i.appVersion);
  }
}
