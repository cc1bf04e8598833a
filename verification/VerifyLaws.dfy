/** What one activate or verify request can do, and what it takes to be granted. */
module VerifyLaws {
  import opened Types
  import opened Lookup
  import opened World
  import opened Invariants
  import opened Verification
  import Challenges
  import IntegrityCheck
  import Policies
  import RateLimit
  import StepInvariants
  import Tokens

  /** The request gets past the rate limiter, the blank-field check and the challenge. */
  predicate Heard(w: World, req: Request, now: Time) {
    && !RateLimit.IsLimited(w.limits, w.rates, RateKey(req), now)
    && !Blank(req)
    && ChallengeAccepted(w, req, now)
  }

  /** The device gate of a request whose licence gate passed. */
  function GateOfDevice(w: World, req: Request, g: LicenseGate, now: Time): DeviceGate
    requires g.Pass? && g.license < |w.data.licenses|
  {
    var (w1, i) := SeeDevice(w, req, now);
    GateDevice(w1.data, w.data.licenses[g.license], w1.data.devices[i], g.claims)
  }

  /** Every gate between the challenge and the integrity check is passed. */
  predicate PassesGates(w: World, req: Request, now: Time) {
    var g := GateLicense(w.data, w.issued, req, now);
    g.Pass? && !GateOfDevice(w, req, g, now).Turned?
  }

  function LicenseOf(w: World, req: Request, now: Time): License
    requires PassesGates(w, req, now)
  {
    w.data.licenses[GateLicense(w.data, w.issued, req, now).license]
  }

  /** The state once the device is known, and its index. */
  function Seen(w: World, req: Request, now: Time): (World, nat) {
    SeeDevice(w, req, now)
  }

  function DeviceOf(w: World, req: Request, now: Time): Device {
    var (w1, i) := SeeDevice(w, req, now);
    w1.data.devices[i]
  }

  function SignalsOf(w: World, req: Request, now: Time): seq<IntegrityCheck.Signal>
    requires PassesGates(w, req, now)
  {
    SignalsOn(w.data, LicenseOf(w, req, now).appId, req.platform, req.integrity)
  }

  /** The activations a request that passes the gates leaves: one added or switched on, for exactly its pair. */
  function ActivationsAfter(w: World, req: Request, now: Time): seq<Activation>
    requires PassesGates(w, req, now)
  {
    var l, v := LicenseOf(w, req, now), DeviceOf(w, req, now);
    var activations := w.data.activations;
    var k := ActivationFor(activations, l.id, v.id);
    if k < |activations| then
      activations[k := activations[k].(status := ActivationActive, lastVerifiedAt := now)]
    else
      activations + [Activation(Seen(w, req, now).0.nextId, l.id, v.id, l.appId, ActivationActive, now, now, None)]
  }

  /** The device is still there, as the gate saw it. */
  ghost predicate DeviceAfter(devices: seq<Device>, v: Device) {
    exists x | x in devices :: x.id == v.id && x.fingerprint == v.fingerprint && x.status == v.status
  }

  lemma BindEffect(w: World, req: Request, now: Time)
    requires GateLicense(w.data, w.issued, req, now).Pass?
    ensures var (w', reply) := Bind(w, req, GateLicense(w.data, w.issued, req, now), now);
            if PassesGates(w, req, now) then
              var l, v, signals := LicenseOf(w, req, now), DeviceOf(w, req, now), SignalsOf(w, req, now);
              && w'.data.activations == ActivationsAfter(w, req, now)
              && DeviceAfter(w'.data.devices, v)
              && w'.rates == w.rates && w'.limits == w.limits && w'.challenges == w.challenges
              && w'.data.policies == w.data.policies
              && (if IntegrityCheck.Denies(signals) then
                    reply == Denied(IntegrityFailed, IntegrityCheck.Assess(signals)) && w'.issued == w.issued
                  else
                    && reply.Granted?
                    && reply.risk == IntegrityCheck.Assess(signals)
                    && reply.claims == Tokens.IssueClaims(w.data.settings, reply.risk.level, l.appId, l.id, v.id,
                                                          l.entitlements, now, now, now)
                    && reply.bundle == Policies.BundleFor(w.data.policies, l.appId, l.id, v.id, l.entitlements,
                                                          Unix(now), reply.claims.expiresAt)
                    && w'.issued == w.issued + {reply.claims})
            else
              && w'.data.activations == w.data.activations && w'.issued == w.issued
              && w'.rates == w.rates && w'.limits == w.limits && w'.challenges == w.challenges
              && w'.data.policies == w.data.policies
              && reply.Denied? && reply.code in {BlockedDevice, DeviceMismatched, TokenDeactivated, LimitExceeded}
  {
    hide GateLicense, GateDevice, SeeDevice, Examine, SignalsOn, IntegrityCheck.Assess, IntegrityCheck.Denies,
      Tokens.IssueClaims, Policies.BundleFor, RefusalRisk, Keeps;
    var g := GateLicense(w.data, w.issued, req, now);
    StepInvariants.PassMeans(w.data, w.issued, req, now);
    StepInvariants.SeeDeviceMeans(w, req, now);
    var (w1, i) := SeeDevice(w, req, now);
    var l, v := w.data.licenses[g.license], w1.data.devices[i];
    var gate := GateDevice(w1.data, l, v, g.claims);
    GateShape(w1.data, l, v, g.claims);
    if !gate.Turned? {
      var w2 := Activate(w1, gate, l.id, v.id, w.data.apps[g.app].appKey, now);
      StepInvariants.ExamineKeeps(w2, i, l.appId, l.id, req.platform, req.integrity, now);
      ReleasesOnly(w.data, w2.data, l.appId, req.platform, req.integrity);
      var w3 := Examine(w2, i, l.appId, l.id, req.platform, req.integrity, now);
      assert w3.data.devices[i] in w3.data.devices;
    }
  }

  lemma ReleasesOnly(a: Data, b: Data, appId: string, platform: string, i: Integrity)
    requires a.releases == b.releases
    ensures SignalsOn(a, appId, platform, i) == SignalsOn(b, appId, platform, i)
  {
  }

  lemma GateShape(d: Data, l: License, v: Device, claims: Option<Claims>)
    ensures var g := GateDevice(d, l, v, claims);
            var k := ActivationFor(d.activations, l.id, v.id);
            && (g.Known? ==> k < |d.activations| && g.activation == k)
            && (g.Fresh? ==> k == |d.activations| && |ActiveDevices(d.activations, l.id)| < l.maxDevices)
            && (g.Turned? ==> g.code in {BlockedDevice, DeviceMismatched, TokenDeactivated, LimitExceeded})
            && (!g.Turned? ==> v.status == DeviceActive)
            && (!g.Turned? && claims.Some? ==>
                  && claims.value.deviceId == v.id
                  && k < |d.activations| && d.activations[k].status == ActivationActive)
  {
  }

  /** The limiter's record and the challenge table after a request, given its reply. */
  ghost predicate RatesAndChallengesAfter(w: World, req: Request, now: Time, w': World, reply: Reply) {
    var k := RateKey(req);
    if RateLimit.IsLimited(w.limits, w.rates, k, now) then
      reply == Failed(RateLimited) && w'.rates == w.rates && w'.challenges == w.challenges
    else
      && reply != Failed(RateLimited)
      && w'.rates == (if reply.Granted? then RateLimit.Reset(w.rates, k) else RateLimit.Record(w.limits, w.rates, k, now))
      && w'.challenges == (if Blank(req) then w.challenges
                           else Challenges.Consume(w.challenges, req.challenge.value, now))
  }

  /**
   The whole effect of a request on activations and tokens. Heard and past all gates, it leaves its own pair
   active and, integrity permitting, is granted exactly the claims of that licence and device; in every other
   case activations and issued tokens are untouched and nothing is granted.
   */
  lemma VerifyEffect(w: World, req: Request, now: Time)
    ensures var (w', reply) := Verify(w, req, now);
            && w'.data.policies == w.data.policies && w'.limits == w.limits
            && RatesAndChallengesAfter(w, req, now, w', reply)
            && if Heard(w, req, now) && PassesGates(w, req, now) then
                 var l, v, signals := LicenseOf(w, req, now), DeviceOf(w, req, now), SignalsOf(w, req, now);
                 && w'.data.activations == ActivationsAfter(w, req, now)
                 && DeviceAfter(w'.data.devices, v)
                 && (if IntegrityCheck.Denies(signals) then
                       reply == Denied(IntegrityFailed, IntegrityCheck.Assess(signals)) && w'.issued == w.issued
                     else
                       && reply.Granted?
                       && reply.risk == IntegrityCheck.Assess(signals)
                       && reply.claims == Tokens.IssueClaims(w.data.settings, reply.risk.level, l.appId, l.id, v.id,
                                                             l.entitlements, now, now, now)
                       && reply.bundle == Policies.BundleFor(w.data.policies, l.appId, l.id, v.id, l.entitlements,
                                                             Unix(now), reply.claims.expiresAt)
                       && w'.issued == w.issued + {reply.claims})
               else
                 && w'.data.activations == w.data.activations && w'.issued == w.issued
                 && !reply.Granted? && (reply.Denied? ==> reply.code != IntegrityFailed)
  {
    hide GateLicense, GateDevice, Bind, SeeDevice, ChallengeAccepted, IntegrityCheck.Assess, IntegrityCheck.Denies,
      SignalsOn, Tokens.IssueClaims, Policies.BundleFor, RateLimit.IsLimited, RateLimit.Record, RefusalRisk, Blank;
    if !RateLimit.IsLimited(w.limits, w.rates, RateKey(req), now) {
      if !Blank(req) {
        NotBlank(req);
        if ChallengeAccepted(w, req, now) {
          var w1 := w.(challenges := Challenges.Consume(w.challenges, req.challenge.value, now));
          SameGates(w, w1, req, now);
          var g := GateLicense(w1.data, w1.issued, req, now);
          if g.Pass? {
            BindEffect(w1, req, now);
          } else {
            StopCodes(w1.data, w1.issued, req, now);
          }
        }
      }
    }
  }

  lemma NotBlank(req: Request)
    requires !Blank(req)
    ensures req.challenge.Some?
  {
  }

  lemma StopCodes(d: Data, issued: set<Claims>, req: Request, now: Time)
    ensures var g := GateLicense(d, issued, req, now);
            g.Stop? ==> g.code !in {IntegrityFailed, RateLimited, InvalidRequest}
  {
  }

  /** The gates do not look at the challenge table. */
  lemma SameGates(w: World, w1: World, req: Request, now: Time)
    requires w1 == w.(challenges := w1.challenges)
    ensures PassesGates(w1, req, now) == PassesGates(w, req, now)
    ensures DeviceOf(w1, req, now) == DeviceOf(w, req, now)
    ensures Seen(w1, req, now).0.nextId == Seen(w, req, now).0.nextId
    ensures PassesGates(w, req, now) ==>
              && LicenseOf(w1, req, now) == LicenseOf(w, req, now)
              && SignalsOf(w1, req, now) == SignalsOf(w, req, now)
              && ActivationsAfter(w1, req, now) == ActivationsAfter(w, req, now)
  {
    hide GateLicense, GateDevice, SignalsOn;
    var s, s1 := SeeDevice(w, req, now), SeeDevice(w1, req, now);
    assert s1.0.data == s.0.data && s1.1 == s.1;
  }

  /** What examining a client changes, and how many identifiers it draws. */
  lemma ExamineLeaves(w: World, device: nat, appId: string, licenseId: Id, platform: string, i: Integrity, now: Time)
    requires device < |w.data.devices|
    ensures Examine(w, device, appId, licenseId, platform, i, now).nextId
            == w.nextId + |SignalsOn(w.data, appId, platform, i)| + 1
  {
    hide LogSignals, SignalsOn, ReportedRelease, IntegrityCheck.Assess, Keeps;
    StepInvariants.LogMeans(w, appId, w.data.devices[device].id, licenseId, SignalsOn(w.data, appId, platform, i), now);
  }

  /** What the rest of the effect is: the device known, and the identifiers drawn. */
  ghost predicate Left(w: World, req: Request, now: Time, w': World)
    requires PassesGates(w, req, now)
  {
    var (w1, l) := (Seen(w, req, now).0, LicenseOf(w, req, now));
    var known := ActivationFor(w.data.activations, l.id, DeviceOf(w, req, now).id) < |w.data.activations|;
    && w'.data.apps == w.data.apps && w'.data.licenses == w.data.licenses && w'.data.settings == w.data.settings
    && w'.nextId == w1.nextId + (if known then 0 else 1) + |SignalsOf(w, req, now)| + 1
    && |w'.data.devices| == |w1.data.devices|
    && forall k | 0 <= k < |w'.data.devices| ::
         && w'.data.devices[k].id == w1.data.devices[k].id && w'.data.devices[k].status == w1.data.devices[k].status
         && w'.data.devices[k].fingerprint == w1.data.devices[k].fingerprint
  }

  lemma BindLeaves(w: World, req: Request, now: Time)
    requires PassesGates(w, req, now)
    ensures Left(w, req, now, Bind(w, req, GateLicense(w.data, w.issued, req, now), now).0)
  {
    hide GateLicense, GateDevice, SeeDevice, Examine, SignalsOn, IntegrityCheck.Assess, IntegrityCheck.Denies,
      Tokens.IssueClaims, Policies.BundleFor, RefusalRisk, Keeps;
    var g := GateLicense(w.data, w.issued, req, now);
    StepInvariants.PassMeans(w.data, w.issued, req, now);
    StepInvariants.SeeDeviceMeans(w, req, now);
    var (w1, i) := SeeDevice(w, req, now);
    var l, v := w.data.licenses[g.license], w1.data.devices[i];
    GateShape(w1.data, l, v, g.claims);
    var w2 := Activate(w1, GateDevice(w1.data, l, v, g.claims), l.id, v.id, l.appId, now);
    StepInvariants.ExamineKeeps(w2, i, l.appId, l.id, req.platform, req.integrity, now);
    ExamineLeaves(w2, i, l.appId, l.id, req.platform, req.integrity, now);
    ReleasesOnly(w.data, w2.data, l.appId, req.platform, req.integrity);
  }

  lemma VerifyLeaves(w: World, req: Request, now: Time)
    requires Heard(w, req, now) && PassesGates(w, req, now)
    ensures Left(w, req, now, Verify(w, req, now).0)
  {
    hide GateLicense, GateDevice, Bind, SeeDevice, ChallengeAccepted, SignalsOn, RateLimit.IsLimited, RateLimit.Record,
      RefusalRisk, Blank;
    NotBlank(req);
    var w1 := w.(challenges := Challenges.Consume(w.challenges, req.challenge.value, now));
    SameGates(w, w1, req, now);
    BindLeaves(w1, req, now);
    assert Seen(w1, req, now).0.data == Seen(w, req, now).0.data by {
      SameSight(w, w1, req, now);
    }
  }

  lemma SameSight(w: World, w1: World, req: Request, now: Time)
    requires w1 == w.(challenges := w1.challenges)
    ensures SeeDevice(w1, req, now).0.data == SeeDevice(w, req, now).0.data
    ensures SeeDevice(w1, req, now).1 == SeeDevice(w, req, now).1
    ensures SeeDevice(w1, req, now).0.nextId == SeeDevice(w, req, now).0.nextId
  {
  }

  /** A request turned away by its device, or for want of room, leaves that device known all the same. */
  lemma TurnedLeaves(w: World, req: Request, now: Time)
    requires Heard(w, req, now) && GateLicense(w.data, w.issued, req, now).Pass?
    requires GateOfDevice(w, req, GateLicense(w.data, w.issued, req, now), now).Turned?
    ensures var (w', reply) := Verify(w, req, now);
            var code := GateOfDevice(w, req, GateLicense(w.data, w.issued, req, now), now).code;
            && reply == Denied(code, RefusalRisk(code))
            && w'.data == Seen(w, req, now).0.data.(riskEvents := w'.data.riskEvents)
  {
    hide GateLicense, GateDevice, SeeDevice, ChallengeAccepted, RateLimit.IsLimited, RateLimit.Record, RefusalRisk,
      Blank;
    NotBlank(req);
    var w1 := w.(challenges := Challenges.Consume(w.challenges, req.challenge.value, now));
    SameSight(w, w1, req, now);
  }
}
