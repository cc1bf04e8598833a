/** Over whole runs: what an admin's revocation, suspension, block or unbinding is worth, and for how long. */
module StandingLaws {
  import opened Types
  import opened Lookup
  import opened World
  import opened Invariants
  import opened Machine
  import opened Frames
  import ActivationLaws
  import Challenges
  import GrantLaws
  import IntegrityCheck
  import RateLimit
  import StepInvariants
  import Steps
  import Verification
  import VerifyLaws

  // ----- which steps can restore a licence or a device -----

  ghost predicate LicensesStand(a: seq<License>, b: seq<License>, resumed: Option<Id>) {
    && |a| <= |b|
    && forall i | 0 <= i < |a| ::
         b[i].id == a[i].id && (b[i].status == Active ==> a[i].status == Active || resumed == Some(a[i].id))
  }

  ghost predicate DevicesStand(a: seq<Device>, b: seq<Device>, unblocked: Option<Id>) {
    && |a| <= |b|
    && forall i | 0 <= i < |a| ::
         && b[i].id == a[i].id
         && (b[i].status == DeviceActive ==> a[i].status == DeviceActive || unblocked == Some(a[i].id))
  }

  /** No licence becomes active and no device unblocked but these. */
  ghost predicate Stand(w: World, w': World, resumed: Option<Id>, unblocked: Option<Id>) {
    && LicensesStand(w.data.licenses, w'.data.licenses, resumed)
    && DevicesStand(w.data.devices, w'.data.devices, unblocked)
  }

  lemma StandSame(w: World, w': World)
    requires w'.data.licenses == w.data.licenses && w'.data.devices == w.data.devices
    ensures Stand(w, w', None, None)
  {
  }

  lemma StandThen(a: World, b: World, c: World)
    requires Stand(a, b, None, None) && Stand(b, c, None, None)
    ensures Stand(a, c, None, None)
  {
  }

  lemma StopStands(w: World, req: Verification.Request, now: Time)
    requires Verification.GateLicense(w.data, w.issued, req, now).Stop?
    ensures Stand(w, Verification.AfterStop(w, Verification.GateLicense(w.data, w.issued, req, now), now), None, None)
  {
    hide AppNamed, LicenseById, LicenseByKey, Verification.CheckLicense;
  }

  lemma SeeDeviceStands(w: World, req: Verification.Request, now: Time)
    ensures Stand(w, Verification.SeeDevice(w, req, now).0, None, None)
  {
  }

  lemma BindStands(w: World, req: Verification.Request, now: Time)
    requires Verification.GateLicense(w.data, w.issued, req, now).Pass?
    ensures Stand(w, Verification.Bind(w, req, Verification.GateLicense(w.data, w.issued, req, now), now).0, None, None)
  {
    hide Stand, Verification.GateLicense, Verification.GateDevice, Verification.SeeDevice, Verification.Examine,
      Verification.SignalsOn, IntegrityCheck.Denies, IntegrityCheck.Assess, Keeps;
    var g := Verification.GateLicense(w.data, w.issued, req, now);
    var appKey, l := w.data.apps[g.app].appKey, w.data.licenses[g.license];
    var (w1, i) := Verification.SeeDevice(w, req, now);
    SeeDeviceStands(w, req, now);
    var v := w1.data.devices[i];
    var w' := Verification.Bind(w, req, g, now).0;
    var gate := Verification.GateDevice(w1.data, l, v, g.claims);
    if gate.Turned? {
      StandSame(w1, w');
    } else {
      var w2 := Verification.Activate(w1, gate, l.id, v.id, appKey, now);
      StandSame(w1, w2);
      ExamineStands(w2, i, appKey, l.id, req.platform, req.integrity, now);
      var w3 := Verification.Examine(w2, i, appKey, l.id, req.platform, req.integrity, now);
      StandSame(w3, w');
      StandThen(w1, w2, w3);
      StandThen(w1, w3, w');
    }
    StandThen(w, w1, w');
  }

  lemma ExamineStands(w: World, device: nat, appId: string, licenseId: Id, platform: string, i: Integrity, now: Time)
    requires device < |w.data.devices|
    ensures Stand(w, Verification.Examine(w, device, appId, licenseId, platform, i, now), None, None)
  {
    hide Verification.Examine, Keeps;
    StepInvariants.ExamineKeeps(w, device, appId, licenseId, platform, i, now);
  }

  lemma VerifyStands(w: World, req: Verification.Request, now: Time)
    ensures Stand(w, Verification.Verify(w, req, now).0, None, None)
  {
    hide Stand, Verification.GateLicense, Verification.Bind, Verification.AfterStop, RateLimit.IsLimited,
      Verification.ChallengeAccepted;
    var w' := Verification.Verify(w, req, now).0;
    StandSame(w, w);
    if !RateLimit.IsLimited(w.limits, w.rates, Verification.RateKey(req), now) && !Verification.Blank(req) {
      var w1 := w.(challenges := Challenges.Consume(w.challenges, req.challenge.value, now));
      StandSame(w, w1);
      if Verification.ChallengeAccepted(w, req, now) {
        var g := Verification.GateLicense(w1.data, w1.issued, req, now);
        var w2 := if g.Stop? then Verification.AfterStop(w1, g, now) else Verification.Bind(w1, req, g, now).0;
        if g.Stop? {
          StopStands(w1, req, now);
        } else {
          BindStands(w1, req, now);
        }
        StandThen(w, w1, w2);
        StandSame(w2, w');
        StandThen(w, w2, w');
      } else {
        StandSame(w, w');
      }
    } else {
      StandSame(w, w');
    }
  }

  lemma HeartbeatStands(w: World, req: Steps.HeartbeatRequest, now: Time)
    ensures Stand(w, Steps.Heartbeat(w, req, now).0, None, None)
  {
    hide Stand, Steps.Evidence, Steps.WrongInstall, Steps.TokenGate, Steps.ExamineBeat, Steps.TouchDevice;
    var c := req.token;
    var w' := Steps.Heartbeat(w, req, now).0;
    StandSame(w, w);
    if Steps.TokenGate(w, req.appId, c, now) == Steps.Ok {
      var w1 := Steps.TouchActivation(w, c, now);
      StandSame(w, w1);
      if Steps.WrongInstall(w1.data, c, req.installId) {
        StandSame(w, w');
      } else {
        var w2 := Steps.TouchDevice(w1, c.deviceId, now);
        TouchStands(w1, c.deviceId, now);
        StandThen(w, w1, w2);
        if Steps.Evidence(req).Some? {
          BeatStands(w2, c, Steps.PlatformOf(w2, req), Steps.Evidence(req).value, now);
          StandThen(w, w2, w');
        }
      }
    }
  }

  lemma TouchStands(w: World, id: Id, now: Time)
    ensures Stand(w, Steps.TouchDevice(w, id, now), None, None)
  {
  }

  lemma BeatStands(w: World, c: Claims, platform: string, i: Integrity, now: Time)
    ensures Stand(w, Steps.ExamineBeat(w, c, platform, i, now), None, None)
  {
    hide Verification.LogSignals, Verification.SignalsOn, Verification.ReportedRelease, IntegrityCheck.Assess, Keeps;
    var signals := Verification.SignalsOn(w.data, c.appId, platform, i);
    StepInvariants.LogMeans(w, c.appId, c.deviceId, c.licenseId, signals, now);
  }

  lemma DeactivateStands(w: World, req: Steps.DeactivateRequest, now: Time)
    ensures Stand(w, Steps.Deactivate(w, req, now).0, None, None)
  {
    hide Stand, Steps.TokenGate, Steps.WrongInstall, Steps.TouchDevice;
    var w1 := Steps.SwitchOff(w, req.token, now);
    StandSame(w, w);
    StandSame(w, w1);
    TouchStands(w1, req.token.deviceId, now);
    StandThen(w, w1, Steps.TouchDevice(w1, req.token.deviceId, now));
    StandSame(w, WithRisk(w, req.token.appId, Some(req.token.deviceId), req.token.licenseId, TokenDeviceMismatch, High,
                          DenyAction, now));
  }

  function ResumedBy(c: Command): Option<Id> {
    if c.ActOnLicense? && c.licenseAction == Steps.Resume then Some(c.licenseId) else None
  }

  function UnblockedBy(c: Command): Option<Id> {
    if c.ActOnDevice? && c.deviceAction == Steps.Unblock then Some(c.deviceId) else None
  }

  lemma LicenseActionStands(w: World, id: Id, action: Steps.LicenseAction, admin: string, now: Time)
    ensures Stand(w, Steps.ActOnLicense(w, id, action, admin, now).0,
                  if action == Steps.Resume then Some(id) else None, None)
  {
  }

  lemma DeviceActionStands(w: World, id: Id, action: Steps.DeviceAction, admin: string, now: Time)
    ensures Stand(w, Steps.ActOnDevice(w, id, action, admin, now).0,
                  None, if action == Steps.Unblock then Some(id) else None)
  {
  }

  /** Every step: only a resume makes a licence active that was not, only an unblock a device that was blocked. */
  lemma StepStands(w: World, call: Call)
    ensures Stand(w, Step(w, call).0, ResumedBy(call.command), UnblockedBy(call.command))
  {
    hide Stand;
    hide Verification.Verify, Steps.Heartbeat, Steps.Deactivate, Steps.ActOnLicense, Steps.ActOnDevice;
    var now, admin := call.now, call.adminId;
    match call.command
    case Verify(req) => VerifyStands(w, req, now);
    case Heartbeat(req) => HeartbeatStands(w, req, now);
    case Deactivate(req) => DeactivateStands(w, req, now);
    case ActOnLicense(id, action) => LicenseActionStands(w, id, action, admin, now);
    case ActOnDevice(id, action) => DeviceActionStands(w, id, action, admin, now);
    case CreateLicense(_, _) => CreateStands(w, call);
    case _ => OthersStand(w, call);
  }

  lemma CreateStands(w: World, call: Call)
    requires call.command.CreateLicense?
    ensures Stand(w, Step(w, call).0, None, None)
  {
    hide Steps.NewLicense;
  }

  /** No other request touches a licence or a device. */
  lemma OthersStand(w: World, call: Call)
    requires LicenseRows !in MayChange(call.command) && DeviceRows !in MayChange(call.command)
    ensures Stand(w, Step(w, call).0, None, None)
  {
    hide Step, MayChange, Stand;
    StepFrame(w, call);
    StandSame(w, Step(w, call).0);
  }

  // ----- which steps can switch an activation off -----

  /** Every activation of the licence is on. */
  ghost predicate AllOn(activations: seq<Activation>, licenseId: Id) {
    forall k | 0 <= k < |activations| ::
      activations[k].licenseId == licenseId ==> activations[k].status == ActivationActive
  }

  /** A request that can switch an activation of the licence off: a revocation, an unbinding, a deactivation. */
  predicate TakesOff(c: Command, licenseId: Id) {
    || (c.ActOnLicense? && c.licenseAction == Steps.Revoke && c.licenseId == licenseId)
    || (c.ActOnDevice? && c.deviceAction == Steps.Unbind)
    || (c.Deactivate? && c.off.token.licenseId == licenseId)
  }

  lemma VerifyAllOn(w: World, req: Verification.Request, now: Time, licenseId: Id)
    requires AllOn(w.data.activations, licenseId)
    ensures AllOn(Verification.Verify(w, req, now).0.data.activations, licenseId)
  {
    hide Verification.Verify, VerifyLaws.Heard, VerifyLaws.PassesGates, VerifyLaws.SignalsOf, VerifyLaws.LicenseOf,
      VerifyLaws.DeviceOf, VerifyLaws.DeviceAfter, VerifyLaws.RatesAndChallengesAfter;
    VerifyLaws.VerifyEffect(w, req, now);
  }

  lemma HeartbeatAllOn(w: World, req: Steps.HeartbeatRequest, now: Time, licenseId: Id)
    requires AllOn(w.data.activations, licenseId)
    ensures AllOn(Steps.Heartbeat(w, req, now).0.data.activations, licenseId)
  {
    hide Steps.Heartbeat;
    HeartbeatActivations(w, req, now);
  }

  lemma DeactivateAllOn(w: World, req: Steps.DeactivateRequest, now: Time, licenseId: Id)
    requires AllOn(w.data.activations, licenseId) && req.token.licenseId != licenseId
    ensures AllOn(Steps.Deactivate(w, req, now).0.data.activations, licenseId)
  {
    hide Steps.WrongInstall, Steps.TokenGate;
  }

  lemma AdminAllOn(w: World, id: Id, onLicense: Steps.LicenseAction, onDevice: Steps.DeviceAction, admin: string,
                   now: Time, licenseId: Id)
    requires AllOn(w.data.activations, licenseId)
    ensures id != licenseId || onLicense != Steps.Revoke ==>
              AllOn(Steps.ActOnLicense(w, id, onLicense, admin, now).0.data.activations, licenseId)
    ensures onDevice != Steps.Unbind ==>
              AllOn(Steps.ActOnDevice(w, id, onDevice, admin, now).0.data.activations, licenseId)
  {
  }

  /** Every step: while all activations of a licence are on, only these requests can switch one off. */
  lemma StepAllOn(w: World, call: Call, licenseId: Id)
    requires AllOn(w.data.activations, licenseId) && !TakesOff(call.command, licenseId)
    ensures AllOn(Step(w, call).0.data.activations, licenseId)
  {
    hide AllOn, Verification.Verify, Steps.Heartbeat, Steps.Deactivate, Steps.ActOnLicense, Steps.ActOnDevice;
    var now, admin := call.now, call.adminId;
    match call.command
    case Verify(req) => VerifyAllOn(w, req, now, licenseId);
    case Heartbeat(req) => HeartbeatAllOn(w, req, now, licenseId);
    case Deactivate(req) => DeactivateAllOn(w, req, now, licenseId);
    case ActOnLicense(id, action) => AdminAllOn(w, id, action, Steps.Block, admin, now, licenseId);
    case ActOnDevice(id, action) => AdminAllOn(w, id, Steps.Resume, action, admin, now, licenseId);
    case _ => SameActivations(w, call);
  }

  lemma SameActivations(w: World, call: Call)
    requires ActivationRows !in MayChange(call.command)
    ensures Step(w, call).0.data.activations == w.data.activations
  {
    hide Step, MayChange;
    StepFrame(w, call);
  }

  // ----- until it is undone -----

  lemma {:induction false} LicenseStays(r: Run, m: nat, n: nat, k: nat)
    requires IsRun(r) && Valid(r.states[0]) && m <= n < |r.states| && k < |r.states[m].data.licenses|
    requires r.states[m].data.licenses[k].status != Active
    requires forall i | m <= i < n :: ResumedBy(r.calls[i].command) != Some(r.states[m].data.licenses[k].id)
    ensures k < |r.states[n].data.licenses| && r.states[n].data.licenses[k].id == r.states[m].data.licenses[k].id
    ensures r.states[n].data.licenses[k].status != Active
    decreases n
  {
    hide Step, Valid, ResumedBy, UnblockedBy;
    if m < n {
      LicenseStays(r, m, n - 1, k);
      assert Stepped(r, n - 1);
      StepStands(r.states[n - 1], r.calls[n - 1]);
    }
  }

  lemma {:induction false} DeviceStays(r: Run, m: nat, n: nat, k: nat)
    requires IsRun(r) && Valid(r.states[0]) && m <= n < |r.states| && k < |r.states[m].data.devices|
    requires r.states[m].data.devices[k].status == DeviceBlocked
    requires forall i | m <= i < n :: UnblockedBy(r.calls[i].command) != Some(r.states[m].data.devices[k].id)
    ensures k < |r.states[n].data.devices| && r.states[n].data.devices[k].id == r.states[m].data.devices[k].id
    ensures r.states[n].data.devices[k].status == DeviceBlocked
    decreases n
  {
    hide Step, Valid, ResumedBy, UnblockedBy;
    if m < n {
      DeviceStays(r, m, n - 1, k);
      assert Stepped(r, n - 1);
      StepStands(r.states[n - 1], r.calls[n - 1]);
    }
  }

  /**
   A licence once revoked, suspended or found expired gets no grant and no capability decision for any of its
   tokens, by any request of the run, until an admin resumes it.
   */
  lemma InertUntilResumed(r: Run, m: nat, n: nat, k: nat)
    requires IsRun(r) && Valid(r.states[0]) && m <= n < |r.calls| && k < |r.states[m].data.licenses|
    requires r.states[m].data.licenses[k].status != Active
    requires forall i | m <= i < n :: ResumedBy(r.calls[i].command) != Some(r.states[m].data.licenses[k].id)
    ensures var id := r.states[m].data.licenses[k].id;
            && (r.answers[n].Verified? && r.answers[n].reply.Granted? ==> r.answers[n].reply.claims.licenseId != id)
            && (r.calls[n].command.CapabilityCheck? && r.calls[n].command.check.token.Some?
                && r.calls[n].command.check.token.value.licenseId == id ==>
                  r.answers[n].Decided? && r.answers[n].status != Steps.Ok)
  {
    hide Step, Valid, ResumedBy, GrantLaws.ConsumedChallenge, GrantLaws.ClaimsDevice, Steps.CapabilityGate;
    LicenseStays(r, m, n, k);
    StepInvariants.RunKeeps(r, n, n);
    var w, call := r.states[n], r.calls[n];
    OneById(w, k);
    if r.answers[n].Verified? && r.answers[n].reply.Granted? {
      GrantLaws.EveryGrantIsSound(r, n);
    }
    if call.command.CapabilityCheck? {
      assert Stepped(r, n);
      ActivationLaws.StepAnswers(w, call);
      if Steps.CapabilityGate(w, call.command.check, call.now) == Steps.Ok {
        StepInvariants.CapabilityGateMeans(w, call.command.check, call.now);
      }
    }
  }

  lemma OneById(w: World, k: nat)
    requires Valid(w) && k < |w.data.licenses|
    ensures LicenseById(w.data.licenses, w.data.licenses[k].id) == k
  {
  }

  /** A device once blocked gets no grant, under any licence, until an admin unblocks it. */
  lemma BlockedUntilUnblocked(r: Run, m: nat, n: nat, k: nat)
    requires IsRun(r) && Valid(r.states[0]) && m <= n < |r.calls| && k < |r.states[m].data.devices|
    requires r.states[m].data.devices[k].status == DeviceBlocked
    requires forall i | m <= i < n :: UnblockedBy(r.calls[i].command) != Some(r.states[m].data.devices[k].id)
    requires r.answers[n].Verified? && r.answers[n].reply.Granted?
    ensures r.answers[n].reply.claims.deviceId != r.states[m].data.devices[k].id
  {
    hide Step, Valid, GrantLaws.ConsumedChallenge, GrantLaws.ClaimsLicense;
    GrantLaws.EveryGrantIsSound(r, n);
    DeviceStays(r, m, n + 1, k);
    StepInvariants.RunKeeps(r, n + 1, n + 1);
    OneDeviceById(r.states[n + 1], k);
  }

  lemma OneDeviceById(w: World, k: nat)
    requires Valid(w) && k < |w.data.devices|
    ensures DeviceById(w.data.devices, w.data.devices[k].id) == k
  {
  }

  // ----- what switches a token off -----

  /** The three ways to take a token out of use: its licence revoked, its device unbound, or itself deactivated. */
  predicate SwitchesOff(call: Call, answer: Response, c: Claims) {
    && answer == Done(Steps.Ok)
    && (|| (call.command.ActOnLicense? && call.command.licenseAction == Steps.Revoke
            && call.command.licenseId == c.licenseId)
        || (call.command.ActOnDevice? && call.command.deviceAction == Steps.Unbind
            && call.command.deviceId == c.deviceId)
        || (call.command.Deactivate? && call.command.off.token.licenseId == c.licenseId
            && call.command.off.token.deviceId == c.deviceId))
  }

  /** Whether the activation of the token's pair is there and off. */
  predicate PairOff(activations: seq<Activation>, k: nat, c: Claims) {
    && k < |activations| && activations[k].status != ActivationActive
    && activations[k].licenseId == c.licenseId && activations[k].deviceId == c.deviceId
  }

  lemma RevokeSwitchesOff(w: World, c: Claims, admin: string, now: Time)
    requires Steps.ActOnLicense(w, c.licenseId, Steps.Revoke, admin, now).1 == Steps.Ok
    requires ActivationFor(w.data.activations, c.licenseId, c.deviceId) < |w.data.activations|
    ensures PairOff(Steps.ActOnLicense(w, c.licenseId, Steps.Revoke, admin, now).0.data.activations,
                    ActivationFor(w.data.activations, c.licenseId, c.deviceId), c)
  {
  }

  lemma UnbindSwitchesOff(w: World, c: Claims, admin: string, now: Time)
    requires Steps.ActOnDevice(w, c.deviceId, Steps.Unbind, admin, now).1 == Steps.Ok
    requires ActivationFor(w.data.activations, c.licenseId, c.deviceId) < |w.data.activations|
    ensures PairOff(Steps.ActOnDevice(w, c.deviceId, Steps.Unbind, admin, now).0.data.activations,
                    ActivationFor(w.data.activations, c.licenseId, c.deviceId), c)
  {
  }

  lemma DeactivateSwitchesOff(w: World, c: Claims, req: Steps.DeactivateRequest, now: Time)
    requires req.token.licenseId == c.licenseId && req.token.deviceId == c.deviceId
    requires Steps.Deactivate(w, req, now).1 == Steps.Ok
    requires ActivationFor(w.data.activations, c.licenseId, c.deviceId) < |w.data.activations|
    ensures PairOff(Steps.Deactivate(w, req, now).0.data.activations,
                    ActivationFor(w.data.activations, c.licenseId, c.deviceId), c)
  {
    hide Steps.TokenGate, Steps.WrongInstall;
  }

  lemma SwitchesOffWorks(w: World, call: Call, c: Claims)
    requires SwitchesOff(call, Step(w, call).1, c)
    requires ActivationFor(w.data.activations, c.licenseId, c.deviceId) < |w.data.activations|
    ensures PairOff(Step(w, call).0.data.activations, ActivationFor(w.data.activations, c.licenseId, c.deviceId), c)
  {
    hide Steps.ActOnLicense, Steps.ActOnDevice, Steps.Deactivate, PairOff;
    match call.command
    case ActOnLicense(_, _) => RevokeSwitchesOff(w, c, call.adminId, call.now);
    case ActOnDevice(_, _) => UnbindSwitchesOff(w, c, call.adminId, call.now);
    case Deactivate(req) => DeactivateSwitchesOff(w, c, req, call.now);
    case _ =>
  }

  predicate PresentsToken(call: Call, c: Claims) {
    call.command.Verify? && call.command.request.licenseKey == "" && call.command.request.token == Some(c)
  }

  /**
   A token signed before its licence was revoked, its device unbound or its activation deactivated is refused from
   then on by verify and by the capability check, whatever else happens (a resume of the licence included), until a
   licence-key request for exactly that licence and device.
   */
  lemma TokenDeadAfter(r: Run, m: nat, n: nat, c: Claims, l: License, v: Device)
    requires IsRun(r) && Valid(r.states[0]) && m < n < |r.calls|
    requires c in r.states[m].issued && SwitchesOff(r.calls[m], r.answers[m], c)
    requires l in r.states[m].data.licenses && l.id == c.licenseId && v in r.states[m].data.devices && v.id == c.deviceId
    requires forall i | m < i < n :: !ActivationLaws.NamesPair(r.calls[i], l.keyHash, v.fingerprint)
    ensures var call := r.calls[n];
            && (PresentsToken(call, c) ==> r.answers[n].Verified? && !r.answers[n].reply.Granted?)
            && (call.command.CapabilityCheck? && call.command.check.token == Some(c) ==>
                  r.answers[n].Decided? && r.answers[n].status != Steps.Ok)
  {
    hide Step, Valid, SwitchesOff, ActivationLaws.NamesPair, Grows;
    StepInvariants.RunKeeps(r, m, m + 1);
    var w, w' := r.states[m], r.states[m + 1];
    HasActivation(w, c);
    assert Stepped(r, m);
    SwitchesOffWorks(w, r.calls[m], c);
    var k := ActivationFor(w.data.activations, c.licenseId, c.deviceId);
    PairAt(w, w', k, l, v);
    ActivationLaws.OffUntilKeyRequest(r, m + 1, n, k, c, l.keyHash, v.fingerprint);
  }

  lemma HasActivation(w: World, c: Claims)
    requires Valid(w) && c in w.issued
    ensures ActivationFor(w.data.activations, c.licenseId, c.deviceId) < |w.data.activations|
  {
    assert Backed(c, w.data.licenses, w.data.activations);
  }

  lemma PairAt(w: World, w': World, k: nat, l: License, v: Device)
    requires Grows(w, w') && k < |w.data.activations| && l in w.data.licenses && v in w.data.devices
    requires w.data.activations[k].licenseId == l.id && w.data.activations[k].deviceId == v.id
    ensures k < |w'.data.activations| && ActivationLaws.OfPair(w', k, l.keyHash, v.fingerprint)
  {
    assert ActivationLaws.OfPair(w, k, l.keyHash, v.fingerprint);
    ActivationLaws.OfPairKept(w, w', k, l.keyHash, v.fingerprint);
  }
}
