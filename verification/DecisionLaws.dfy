/** Who is granted a token, said without the server's gates: the whole decision as one plain condition. */
module DecisionLaws {
  import opened Types
  import opened Lookup
  import opened World
  import opened Invariants
  import opened Machine
  import ActivationLaws
  import IntegrityCheck
  import StepInvariants
  import Verification
  import VerifyLaws

  /** The licence a request presents: by its key, which takes precedence, or by a token this server signed. */
  function Presented(w: World, req: Verification.Request): Option<License> {
    var i := if req.licenseKey != "" then LicenseByKey(w.data.licenses, req.licenseKey)
             else if req.token.Some? && req.token.value in w.issued then
               LicenseById(w.data.licenses, req.token.value.licenseId)
             else |w.data.licenses|;
    if i < |w.data.licenses| then Some(w.data.licenses[i]) else None
  }

  /** The limiter, the blank-field check and the challenge let the request through. */
  predicate Admitted(w: World, req: Verification.Request, now: Time) {
    && !(w.limits.failures > 0 && w.limits.window > 0
         && Verification.RateKey(req) in w.rates
         && now < w.rates[Verification.RateKey(req)].start + w.limits.window
         && w.rates[Verification.RateKey(req)].failures >= w.limits.failures)
    && req.appId != "" && req.nonce != "" && req.installId != "" && req.fingerprint != "" && req.challenge.Some?
    && req.challenge.value in w.challenges
    && var c := w.challenges[req.challenge.value];
       c.appId == req.appId && c.installId == req.installId && c.nonce == req.nonce && now <= c.expiresAt
  }

  /** The licence is one of the active application, active itself, and not expired. */
  predicate Licensed(w: World, req: Verification.Request, now: Time) {
    var app, l := AppNamed(w.data.apps, req.appId), Presented(w, req);
    && app < |w.data.apps| && w.data.apps[app].status == AppActive
    && l.Some? && l.value.appId == w.data.apps[app].appKey && l.value.status == Active && now <= l.value.expiresAt
  }

  /**
   The device is not blocked; a token is for exactly this device and its activation is on; a key is for a device
   activated before, or there is room for one more.
   */
  ghost predicate DeviceWelcome(w: World, req: Verification.Request, l: License) {
    && (forall v | v in w.data.devices && v.fingerprint == Sha256(req.fingerprint) :: v.status == DeviceActive)
    && (if req.licenseKey == "" then
          && req.token.Some?
          && exists v, a | v in w.data.devices && a in w.data.activations ::
               && v.fingerprint == Sha256(req.fingerprint) && req.token.value.deviceId == v.id
               && a.licenseId == l.id && a.deviceId == v.id && a.status == ActivationActive
        else
          || |ActiveDevices(w.data.activations, l.id)| < l.maxDevices
          || exists v, a | v in w.data.devices && a in w.data.activations ::
               v.fingerprint == Sha256(req.fingerprint) && a.licenseId == l.id && a.deviceId == v.id)
  }

  /** Everything it takes. */
  ghost predicate Deserves(w: World, req: Verification.Request, now: Time) {
    && Admitted(w, req, now)
    && Licensed(w, req, now)
    && var l := Presented(w, req).value;
       && DeviceWelcome(w, req, l)
       && !IntegrityCheck.Refused(
            Verification.ReportedRelease(w.data, l.appId, req.platform, req.integrity), req.integrity)
  }

  lemma AdmittedIff(w: World, req: Verification.Request, now: Time)
    ensures VerifyLaws.Heard(w, req, now) <==> Admitted(w, req, now)
  {
  }

  lemma LicensedIff(w: World, req: Verification.Request, now: Time)
    requires Valid(w)
    ensures var g := Verification.GateLicense(w.data, w.issued, req, now);
            && (g.Pass? <==> Licensed(w, req, now))
            && (g.Pass? ==> Presented(w, req) == Some(w.data.licenses[g.license])
                            && g.claims == if req.licenseKey != "" then None else req.token)
  {
    if req.licenseKey == "" && req.token.Some? && req.token.value in w.issued {
      assert Backed(req.token.value, w.data.licenses, w.data.activations);
    }
  }

  lemma WelcomeIff(w: World, req: Verification.Request, l: License, now: Time)
    requires Valid(w) && l in w.data.licenses
    requires req.licenseKey == "" ==> req.token.Some? && req.token.value in w.issued
    ensures var (w1, i) := Verification.SeeDevice(w, req, now);
            var claims := if req.licenseKey != "" then None else req.token;
            !Verification.GateDevice(w1.data, l, w1.data.devices[i], claims).Turned?
            <==> DeviceWelcome(w, req, l)
  {
    hide ActiveDevices, LicensesOk, EventsOk, LogsOk, PoliciesOk, IssuedOk, ChallengesOk, KeysOk, Refers;
    var i := DeviceByFingerprint(w.data.devices, Sha256(req.fingerprint));
    var d := w.data;
    if i < |d.devices| {
      var v := d.devices[i];
      assert v in d.devices;
      OneOfFingerprint(d.devices, w.nextId, i);
      var a := ActivationFor(d.activations, l.id, v.id);
      if a < |d.activations| {
        assert d.activations[a] in d.activations;
        ActivationLaws.OnePair(d.activations, d.licenses, d.devices, w.nextId, a);
      }
    } else {
      NoActivationOfNewDevice(w, l.id);
    }
  }

  lemma OneOfFingerprint(ds: seq<Device>, next: Id, i: nat)
    requires DevicesOk(ds, next) && i < |ds|
    ensures forall v | v in ds && v.fingerprint == ds[i].fingerprint :: v == ds[i]
  {
  }

  lemma NoActivationOfNewDevice(w: World, licenseId: Id)
    requires Valid(w)
    ensures ActivationFor(w.data.activations, licenseId, w.nextId) == |w.data.activations|
  {
    var d := w.data;
    forall k | 0 <= k < |d.activations| ensures d.activations[k].deviceId != w.nextId {
      assert Refers(d.activations[k], d.licenses, d.devices);
      assert d.devices[DeviceById(d.devices, d.activations[k].deviceId)].id < w.nextId;
    }
  }

  /**
   The decision, exactly: an activate or verify request is granted if and only if it deserves to be. Neither any
   history nor any other part of the state has a say.
   */
  lemma GrantedIff(w: World, req: Verification.Request, now: Time)
    requires Valid(w)
    ensures Verification.Verify(w, req, now).1.Granted? <==> Deserves(w, req, now)
  {
    hide Valid, Verification.Verify, Verification.GateLicense, Verification.GateDevice, Verification.SeeDevice,
      VerifyLaws.Heard, Admitted, Licensed, DeviceWelcome, IntegrityCheck.Refused, IntegrityCheck.Denies,
      IntegrityCheck.Signals, Verification.ReportedRelease, Presented;
    VerifyLaws.VerifyEffect(w, req, now);
    AdmittedIff(w, req, now);
    LicensedIff(w, req, now);
    var g := Verification.GateLicense(w.data, w.issued, req, now);
    if g.Pass? {
      var l := w.data.licenses[g.license];
      StepInvariants.PassMeans(w.data, w.issued, req, now);
      WelcomeIff(w, req, l, now);
      IntegrityCheck.DeniedIff(Verification.ReportedRelease(w.data, l.appId, req.platform, req.integrity), req.integrity);
    }
  }

  /** In every run, every activate and verify request is answered by that condition. */
  lemma EveryDecision(r: Run, i: nat)
    requires IsRun(r) && Valid(r.states[0]) && i < |r.calls| && r.calls[i].command.Verify?
    ensures r.answers[i].Verified?
    ensures r.answers[i].reply.Granted? <==> Deserves(r.states[i], r.calls[i].command.request, r.calls[i].now)
  {
    hide Step, Valid, Deserves, Verification.Verify;
    StepInvariants.RunKeeps(r, i, i);
    assert Stepped(r, i);
    ActivationLaws.StepAnswers(r.states[i], r.calls[i]);
    GrantedIff(r.states[i], r.calls[i].command.request, r.calls[i].now);
  }
}
