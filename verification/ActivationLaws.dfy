/** Over whole runs: how activations come and go, and how many devices a licence has. */
module ActivationLaws {
  import opened Types
  import opened Lookup
  import opened World
  import opened Invariants
  import opened Machine
  import opened StepInvariants
  import opened Frames
  import Steps
  import Verification
  import VerifyLaws

  // ----- which steps switch an activation on -----

  /** A licence-key request for the licence and the device with the given hashes. */
  predicate NamesPair(call: Call, keyHash: Hash, fingerprint: Hash) {
    && call.command.Verify?
    && call.command.request.licenseKey != ""
    && Sha256(call.command.request.licenseKey) == keyHash
    && Sha256(call.command.request.fingerprint) == fingerprint
  }

  /**
   An activation that was off is on after a step only if the step was a licence-key request, past the limiter
   and its challenge, for exactly that licence and device, with the licence active and unexpired and the device
   not blocked.
   */
  lemma Revival(w: World, call: Call, k: nat)
    requires Valid(w) && k < |w.data.activations|
    requires w.data.activations[k].status != ActivationActive
    requires k < |Step(w, call).0.data.activations|
    requires Step(w, call).0.data.activations[k].status == ActivationActive
    ensures call.command.Verify?
    ensures var req, a := call.command.request, w.data.activations[k];
            && VerifyLaws.Heard(w, req, call.now) && VerifyLaws.PassesGates(w, req, call.now)
            && var l, v := VerifyLaws.LicenseOf(w, req, call.now), VerifyLaws.DeviceOf(w, req, call.now);
               && a.licenseId == l.id && a.deviceId == v.id
               && NamesPair(call, l.keyHash, v.fingerprint)
               && l.status == Active && call.now <= l.expiresAt && v.status == DeviceActive
  {
    if !call.command.Verify? {
      OthersSwitchNothingOn(w, call);
    } else {
      var req := call.command.request;
      VerifyRevival(w, req, call.now, k);
    }
  }

  lemma VerifyRevival(w: World, req: Verification.Request, now: Time, k: nat)
    requires Valid(w) && k < |w.data.activations|
    requires w.data.activations[k].status != ActivationActive
    requires k < |Verification.Verify(w, req, now).0.data.activations|
    requires Verification.Verify(w, req, now).0.data.activations[k].status == ActivationActive
    ensures var a := w.data.activations[k];
            && VerifyLaws.Heard(w, req, now) && VerifyLaws.PassesGates(w, req, now)
            && var l, v := VerifyLaws.LicenseOf(w, req, now), VerifyLaws.DeviceOf(w, req, now);
               && a.licenseId == l.id && a.deviceId == v.id
               && req.licenseKey != "" && Sha256(req.licenseKey) == l.keyHash
               && Sha256(req.fingerprint) == v.fingerprint
               && l.status == Active && now <= l.expiresAt && v.status == DeviceActive
  {
    hide Valid, Verification.Verify, Verification.GateLicense, Verification.GateDevice, Verification.SeeDevice,
      VerifyLaws.SignalsOf, VerifyLaws.Heard;
    VerifyLaws.VerifyEffect(w, req, now);
    PassedMeans(w, req, now);
  }

  /** What a request that passes all gates has shown, by key or by token. */
  lemma PassedMeans(w: World, req: Verification.Request, now: Time)
    requires VerifyLaws.PassesGates(w, req, now)
    ensures var l, v := VerifyLaws.LicenseOf(w, req, now), VerifyLaws.DeviceOf(w, req, now);
            var app := AppNamed(w.data.apps, req.appId);
            && app < |w.data.apps| && w.data.apps[app].status == AppActive && l.appId == w.data.apps[app].appKey
            && l in w.data.licenses && l.status == Active && now <= l.expiresAt
            && v.status == DeviceActive && v.fingerprint == Sha256(req.fingerprint)
            && (req.licenseKey != "" ==> l.keyHash == Sha256(req.licenseKey))
            && (req.licenseKey == "" ==>
                  && req.token.Some? && req.token.value in w.issued && req.token.value.appId == l.appId
                  && req.token.value.licenseId == l.id && req.token.value.deviceId == v.id
                  && var k := ActivationFor(w.data.activations, l.id, v.id);
                     k < |w.data.activations| && w.data.activations[k].status == ActivationActive)
            && (ActivationFor(w.data.activations, l.id, v.id) == |w.data.activations| ==>
                  |ActiveDevices(w.data.activations, l.id)| < l.maxDevices)
  {
    hide Verification.GateLicense, Verification.GateDevice, Verification.SeeDevice;
    PassMeans(w.data, w.issued, req, now);
    SeeDeviceMeans(w, req, now);
    var g := Verification.GateLicense(w.data, w.issued, req, now);
    var (w1, i) := Verification.SeeDevice(w, req, now);
    VerifyLaws.GateShape(w1.data, w.data.licenses[g.license], w1.data.devices[i], g.claims);
  }

  // ----- an activation that is off stays off -----

  lemma {:induction false} StaysOff(r: Run, m: nat, n: nat, k: nat, keyHash: Hash, fingerprint: Hash)
    requires IsRun(r) && Valid(r.states[0]) && m <= n < |r.states|
    requires k < |r.states[m].data.activations| && r.states[m].data.activations[k].status != ActivationActive
    requires OfPair(r.states[m], k, keyHash, fingerprint)
    requires forall i | m <= i < n :: !NamesPair(r.calls[i], keyHash, fingerprint)
    ensures k < |r.states[n].data.activations|
    ensures SameActivation(r.states[m].data.activations[k], r.states[n].data.activations[k])
    ensures r.states[n].data.activations[k].status != ActivationActive
    decreases n
  {
    hide Valid, Step, OfPair, NamesPair;
    RunKeeps(r, m, n);
    if m < n {
      StaysOff(r, m, n - 1, k, keyHash, fingerprint);
      RunKeeps(r, m, n - 1);
      OfPairKept(r.states[m], r.states[n - 1], k, keyHash, fingerprint);
      assert Stepped(r, n - 1);
      if r.states[n].data.activations[k].status == ActivationActive {
        Revival(r.states[n - 1], r.calls[n - 1], k);
        RevivedPair(r.states[n - 1], r.calls[n - 1], k, keyHash, fingerprint);
      }
    }
  }

  /** The activation's licence and device, wherever they are stored, have these hashes. */
  ghost predicate OfPair(w: World, k: nat, keyHash: Hash, fingerprint: Hash)
    requires k < |w.data.activations|
  {
    var a := w.data.activations[k];
    && (exists l | l in w.data.licenses :: l.id == a.licenseId && l.keyHash == keyHash)
    && (exists v | v in w.data.devices :: v.id == a.deviceId && v.fingerprint == fingerprint)
  }

  lemma OfPairKept(w: World, w': World, k: nat, keyHash: Hash, fingerprint: Hash)
    requires Grows(w, w') && k < |w.data.activations| && OfPair(w, k, keyHash, fingerprint)
    ensures k < |w'.data.activations| && OfPair(w', k, keyHash, fingerprint)
  {
    var a := w.data.activations[k];
    var l :| l in w.data.licenses && l.id == a.licenseId && l.keyHash == keyHash;
    var v :| v in w.data.devices && v.id == a.deviceId && v.fingerprint == fingerprint;
    var i :| 0 <= i < |w.data.licenses| && w.data.licenses[i] == l;
    var j :| 0 <= j < |w.data.devices| && w.data.devices[j] == v;
    assert w'.data.licenses[i] in w'.data.licenses && w'.data.devices[j] in w'.data.devices;
    assert SameActivation(a, w'.data.activations[k]);
  }

  lemma RevivedPair(w: World, call: Call, k: nat, keyHash: Hash, fingerprint: Hash)
    requires Valid(w) && k < |w.data.activations| && OfPair(w, k, keyHash, fingerprint)
    requires call.command.Verify? && VerifyLaws.PassesGates(w, call.command.request, call.now)
    requires var req, a := call.command.request, w.data.activations[k];
             var l, v := VerifyLaws.LicenseOf(w, req, call.now), VerifyLaws.DeviceOf(w, req, call.now);
             a.licenseId == l.id && a.deviceId == v.id && NamesPair(call, l.keyHash, v.fingerprint)
    ensures NamesPair(call, keyHash, fingerprint)
  {
    hide VerifyLaws.PassesGates, Verification.SeeDevice;
    var req, a := call.command.request, w.data.activations[k];
    PassedMeans(w, req, call.now);
    SeeDeviceMeans(w, req, call.now);
    var l' :| l' in w.data.licenses && l'.id == a.licenseId && l'.keyHash == keyHash;
    var v' :| v' in w.data.devices && v'.id == a.deviceId && v'.fingerprint == fingerprint;
    OneLicense(w.data.licenses, w.nextId, VerifyLaws.LicenseOf(w, req, call.now), l');
    var j :| 0 <= j < |w.data.devices| && w.data.devices[j] == v';
    var (w1, i) := Verification.SeeDevice(w, req, call.now);
    if i < |w.data.devices| {
      assert w.data.devices[i].id == v'.id;
    } else {
      assert v'.id < w.nextId;
    }
  }

  lemma OneLicense(ls: seq<License>, next: Id, a: License, b: License)
    requires LicensesOk(ls, next) && a in ls && b in ls && a.id == b.id
    ensures a == b
  {
  }

  /** The token's own activation, unbound, blocked or deactivated, leaves it without use: no grant, no capability. */
  lemma InactiveTokenRefused(w: World, call: Call, c: Claims)
    requires Valid(w)
    requires var k := ActivationFor(w.data.activations, c.licenseId, c.deviceId);
             k < |w.data.activations| && w.data.activations[k].status != ActivationActive
    ensures call.command.Verify? && call.command.request.licenseKey == "" && call.command.request.token == Some(c) ==>
              !Verification.Verify(w, call.command.request, call.now).1.Granted?
    ensures call.command.CapabilityCheck? && call.command.check.token == Some(c) ==>
              Steps.CapabilityCheck(w, call.command.check, call.now).1 != Steps.Ok
  {
    hide Valid, Verification.Verify, Steps.CapabilityGate, VerifyLaws.PassesGates, VerifyLaws.SignalsOf;
    if call.command.Verify? {
      var req := call.command.request;
      VerifyLaws.VerifyEffect(w, req, call.now);
      if VerifyLaws.PassesGates(w, req, call.now) {
        PassedMeans(w, req, call.now);
      }
    }
    if call.command.CapabilityCheck? && Steps.CapabilityGate(w, call.command.check, call.now) == Steps.Ok {
      CapabilityGateMeans(w, call.command.check, call.now);
    }
  }

  /**
   An activation once switched off (unbound, deactivated, or blocked with its licence) stays off, and every token
   for it refused, until a licence-key request for exactly that licence and device: whatever else the run holds.
   */
  lemma OffUntilKeyRequest(r: Run, m: nat, n: nat, k: nat, c: Claims, keyHash: Hash, fingerprint: Hash)
    requires IsRun(r) && Valid(r.states[0]) && m <= n < |r.calls|
    requires k < |r.states[m].data.activations| && r.states[m].data.activations[k].status != ActivationActive
    requires r.states[m].data.activations[k].licenseId == c.licenseId
    requires r.states[m].data.activations[k].deviceId == c.deviceId
    requires OfPair(r.states[m], k, keyHash, fingerprint)
    requires forall i | m <= i < n :: !NamesPair(r.calls[i], keyHash, fingerprint)
    ensures var call := r.calls[n];
            && (call.command.Verify? && call.command.request.licenseKey == "" && call.command.request.token == Some(c) ==>
                  r.answers[n].Verified? && !r.answers[n].reply.Granted?)
            && (call.command.CapabilityCheck? && call.command.check.token == Some(c) ==>
                  r.answers[n].Decided? && r.answers[n].status != Steps.Ok)
  {
    StaysOff(r, m, n, k, keyHash, fingerprint);
    RunKeeps(r, m, n);
    var w := r.states[n];
    OnePair(w.data.activations, w.data.licenses, w.data.devices, w.nextId, k);
    InactiveTokenRefused(w, r.calls[n], c);
    StepAnswers(w, r.calls[n]);
    assert Stepped(r, n);
  }

  lemma OnePair(activations: seq<Activation>, ls: seq<License>, ds: seq<Device>, next: Id, k: nat)
    requires ActivationsOk(activations, ls, ds, next) && k < |activations|
    ensures ActivationFor(activations, activations[k].licenseId, activations[k].deviceId) == k
  {
    hide Refers;
  }

  /** How the machine wraps the answers of its steps. */
  lemma StepAnswers(w: World, call: Call)
    ensures call.command.Verify? ==>
              var (w', reply) := Verification.Verify(w, call.command.request, call.now);
              Step(w, call) == (w', Verified(reply))
    ensures call.command.CapabilityCheck? ==>
              var (w', s, d) := Steps.CapabilityCheck(w, call.command.check, call.now);
              Step(w, call) == (w', Decided(s, d))
    ensures call.command.IssueChallenge? ==>
              var (w', s) := Steps.IssueChallenge(w, call.command.challenge, call.now);
              Step(w, call) == (w', Done(s))
    ensures Step(w, call).1.Verified? ==> call.command.Verify?
  {
    hide Verification.Verify, Steps.CapabilityCheck, Steps.IssueChallenge;
  }
}
