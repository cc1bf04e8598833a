/** Over whole runs: what is recorded stays, keys stay unique, and integrity denials are logged. */
module RecordLaws {
  import opened Types
  import opened Lookup
  import opened World
  import opened Invariants
  import opened Machine
  import opened StepInvariants
  import Challenges
  import IntegrityCheck
  import Policies
  import Steps
  import Verification
  import VerifyLaws

  /**
   These keys of the schema hold in every state of a run: identifiers, fingerprints, licence-device pairs, policy
   keys, and the references of activations to licences, devices and application keys. Of the SDK keys filed under one
   name at most one is active.
   */
  lemma KeysHold(r: Run, i: nat)
    requires IsRun(r) && Valid(r.states[0]) && i < |r.states|
    ensures var d := r.states[i].data;
            && (forall a, b | a in d.licenses && b in d.licenses && a.id == b.id :: a == b)
            && (forall a, b | a in d.devices && b in d.devices && a.id == b.id :: a == b)
            && (forall a, b | a in d.devices && b in d.devices && a.fingerprint == b.fingerprint :: a == b)
            && (forall a, b | a in d.activations && b in d.activations
                              && a.licenseId == b.licenseId && a.deviceId == b.deviceId :: a == b)
            && (forall a | a in d.activations ::
                  && (exists l | l in d.licenses :: l.id == a.licenseId && l.appId == a.appId)
                  && (exists v | v in d.devices :: v.id == a.deviceId))
            && (forall p, q | p in d.policies && q in d.policies
                              && p.appId == q.appId && p.capability == q.capability :: p == q)
            && (forall a | a in d.activations :: IsKey(d.apps, a.appId))
            && (forall i, j | 0 <= i < j < |d.sdkKeys| && d.sdkKeys[i].status == d.sdkKeys[j].status == KeyActive ::
                  d.sdkKeys[i].appId != d.sdkKeys[j].appId)
  {
    hide Step;
    RunKeeps(r, i, i);
    hide Valid;
    ValidKeys(r.states[i]);
  }

  lemma ValidKeys(w: World)
    requires Valid(w)
    ensures var d := w.data;
            && (forall a, b | a in d.licenses && b in d.licenses && a.id == b.id :: a == b)
            && (forall a, b | a in d.devices && b in d.devices && a.id == b.id :: a == b)
            && (forall a, b | a in d.devices && b in d.devices && a.fingerprint == b.fingerprint :: a == b)
            && (forall a, b | a in d.activations && b in d.activations
                              && a.licenseId == b.licenseId && a.deviceId == b.deviceId :: a == b)
            && (forall a | a in d.activations ::
                  && (exists l | l in d.licenses :: l.id == a.licenseId && l.appId == a.appId)
                  && (exists v | v in d.devices :: v.id == a.deviceId))
            && (forall p, q | p in d.policies && q in d.policies
                              && p.appId == q.appId && p.capability == q.capability :: p == q)
            && (forall a | a in d.activations :: IsKey(d.apps, a.appId))
            && (forall i, j | 0 <= i < j < |d.sdkKeys| && d.sdkKeys[i].status == d.sdkKeys[j].status == KeyActive ::
                  d.sdkKeys[i].appId != d.sdkKeys[j].appId)
  {
    var d := w.data;
    forall a | a in d.activations
      ensures exists l | l in d.licenses :: l.id == a.licenseId && l.appId == a.appId
      ensures exists v | v in d.devices :: v.id == a.deviceId
    {
      var k :| 0 <= k < |d.activations| && d.activations[k] == a;
      assert Refers(d.activations[k], d.licenses, d.devices);
      assert d.licenses[LicenseById(d.licenses, a.licenseId)] in d.licenses;
      assert d.devices[DeviceById(d.devices, a.deviceId)] in d.devices;
    }
    assert forall p: Policy, q: Policy | p.appId == q.appId && p.capability == q.capability ::
      Policies.KeyOf(p) == Policies.KeyOf(q);
  }

  /** Records are append-only; an event is resolved at most once, and then has exactly one audit entry saying so. */
  lemma RecordsStand(r: Run, i: nat, j: nat)
    requires IsRun(r) && Valid(r.states[0]) && i <= j < |r.states|
    ensures var d, d' := r.states[i].data, r.states[j].data;
            && d.auditLogs <= d'.auditLogs
            && d.reports <= d'.reports
            && LicensesKept(d.licenses, d'.licenses)
            && DevicesKept(d.devices, d'.devices)
            && ActivationsKept(d.activations, d'.activations)
            && EventsKept(d.riskEvents, d'.riskEvents)
            && (forall e | e in d.riskEvents && e.resolvedAt.Some? :: e in d'.riskEvents)
            && (forall e | e in d'.riskEvents ::
                  Resolutions(d'.auditLogs, e.id) == if e.resolvedAt.Some? then 1 else 0)
            && r.states[i].issued <= r.states[j].issued
  {
    hide Step, LicensesKept, DevicesKept, ActivationsKept, Resolutions;
    RunKeeps(r, i, j);
    var d, d' := r.states[i].data, r.states[j].data;
    forall e | e in d.riskEvents && e.resolvedAt.Some? ensures e in d'.riskEvents {
      var k :| 0 <= k < |d.riskEvents| && d.riskEvents[k] == e;
      assert d'.riskEvents[k] == e;
    }
  }

  /** A rotation retires every key filed under the name it is given, adds one active one there, and touches no other. */
  lemma RotationLeavesOne(w: World, appId: string, admin: string, now: Time)
    requires Valid(w) && Steps.RotateKey(w, appId, admin, now).1 == Steps.Ok
    ensures var keys := Steps.RotateKey(w, appId, admin, now).0.data.sdkKeys;
            && keys != [] && keys[|keys| - 1].appId == appId && keys[|keys| - 1].status == KeyActive
            && keys[|keys| - 1].id == w.nextId
            && (forall k | 0 <= k < |keys| - 1 :: keys[k].appId == appId ==> keys[k].status == KeyRotated)
            && (forall k | 0 <= k < |keys| - 1 :: keys[k].appId != appId ==> keys[k] == w.data.sdkKeys[k])
            && |keys| == |w.data.sdkKeys| + 1
  {
    hide Valid;
  }

  // ----- integrity events -----

  lemma ExamineLogs(w: World, device: nat, appId: string, licenseId: Id, platform: string, i: Integrity, now: Time)
    requires device < |w.data.devices|
    ensures Logged(w, Verification.Examine(w, device, appId, licenseId, platform, i, now),
                   Verification.SignalsOn(w.data, appId, platform, i))
  {
    hide Verification.LogSignals, Verification.SignalsOn, Verification.ReportedRelease, IntegrityCheck.Assess, Keeps;
    LogMeans(w, appId, w.data.devices[device].id, licenseId, Verification.SignalsOn(w.data, appId, platform, i), now);
  }

  lemma BindLogs(w: World, req: Verification.Request, now: Time)
    requires VerifyLaws.PassesGates(w, req, now)
    ensures var w' := Verification.Bind(w, req, Verification.GateLicense(w.data, w.issued, req, now), now).0;
            Logged(w, w', VerifyLaws.SignalsOf(w, req, now))
  {
    hide Verification.GateLicense, Verification.GateDevice, Verification.SeeDevice, Verification.Examine,
      Verification.SignalsOn, IntegrityCheck.Assess, IntegrityCheck.Denies, Verification.RefusalRisk, Keeps,
      Verification.Grant, Logged;
    var g := Verification.GateLicense(w.data, w.issued, req, now);
    PassMeans(w.data, w.issued, req, now);
    SeeDeviceMeans(w, req, now);
    var (w1, i) := Verification.SeeDevice(w, req, now);
    var l, v := w.data.licenses[g.license], w1.data.devices[i];
    var w2 := Verification.Activate(w1, Verification.GateDevice(w1.data, l, v, g.claims), l.id, v.id, l.appId, now);
    var signals := VerifyLaws.SignalsOf(w, req, now);
    VerifyLaws.ReleasesOnly(w.data, w2.data, l.appId, req.platform, req.integrity);
    ExamineLogs(w2, i, l.appId, l.id, req.platform, req.integrity, now);
    var w3 := Verification.Examine(w2, i, l.appId, l.id, req.platform, req.integrity, now);
    GrantKeepsEvents(w3, l, v, l.appId, IntegrityCheck.Assess(signals), now);
    LoggedSame(w2, w3, w, Verification.Bind(w, req, g, now).0, signals);
  }

  lemma GrantKeepsEvents(w: World, l: License, v: Device, appKey: string, risk: IntegrityCheck.RiskResult, now: Time)
    ensures Verification.Grant(w, l, v, appKey, risk, now).0.data == w.data
  {
  }

  /** Exactly these signals were logged, in order, after the events there were before. */
  ghost predicate Logged(w: World, w': World, signals: seq<IntegrityCheck.Signal>) {
    var a, b := w.data.riskEvents, w'.data.riskEvents;
    && a <= b && |b| == |a| + |signals|
    && forall k | 0 <= k < |signals| ::
         && b[|a| + k].eventType == signals[k].eventType
         && b[|a| + k].action == signals[k].answer.EventAction()
         && b[|a| + k].severity == signals[k].answer.Severity()
         && b[|a| + k].resolvedAt == None
  }

  /** A request that passes its gates is denied for integrity exactly when it logs an event with the action "deny". */
  lemma DenialIsLogged(w: World, req: Verification.Request, now: Time)
    requires VerifyLaws.Heard(w, req, now) && VerifyLaws.PassesGates(w, req, now)
    ensures var (w', reply) := Verification.Verify(w, req, now);
            && w.data.riskEvents <= w'.data.riskEvents
            && (reply.Denied? <==> exists e | e in w'.data.riskEvents[|w.data.riskEvents|..] :: e.action == DenyAction)
            && (reply.Denied? ==> IntegrityCheck.Deny in reply.risk.actions && reply.risk.score >= 90
                                  && reply.risk.level == High)
            && (reply.Granted? ==> IntegrityCheck.Deny !in reply.risk.actions)
  {
    hide Verification.Verify, VerifyLaws.PassesGates, VerifyLaws.Heard, VerifyLaws.SignalsOf, IntegrityCheck.Assess,
      IntegrityCheck.Denies;
    VerifyLogs(w, req, now);
    ReplyTells(w, req, now);
    SignalsConsistent(w, req, now);
    var w' := Verification.Verify(w, req, now).0;
    SameDenials(w'.data.riskEvents[|w.data.riskEvents|..], VerifyLaws.SignalsOf(w, req, now));
  }

  lemma ReplyTells(w: World, req: Verification.Request, now: Time)
    requires VerifyLaws.Heard(w, req, now) && VerifyLaws.PassesGates(w, req, now)
    ensures var reply, signals := Verification.Verify(w, req, now).1, VerifyLaws.SignalsOf(w, req, now);
            && !reply.Failed? && reply.risk == IntegrityCheck.Assess(signals)
            && (reply.Denied? <==> IntegrityCheck.Denies(signals))
  {
    hide Verification.Verify, VerifyLaws.PassesGates, VerifyLaws.Heard, VerifyLaws.SignalsOf, IntegrityCheck.Assess,
      IntegrityCheck.Denies, VerifyLaws.ActivationsAfter, VerifyLaws.LicenseOf, VerifyLaws.DeviceOf,
      VerifyLaws.RatesAndChallengesAfter, VerifyLaws.DeviceAfter;
    VerifyLaws.VerifyEffect(w, req, now);
  }

  lemma SameDenials(added: seq<RiskEvent>, signals: seq<IntegrityCheck.Signal>)
    requires |added| == |signals|
    requires forall k | 0 <= k < |signals| :: added[k].action == signals[k].answer.EventAction()
    ensures (exists e | e in added :: e.action == DenyAction)
            <==> exists s | s in signals :: s.answer.EventAction() == DenyAction
  {
    if e :| e in added && e.action == DenyAction {
      var k :| 0 <= k < |added| && added[k] == e;
      assert signals[k] in signals;
    }
    if s :| s in signals && s.answer.EventAction() == DenyAction {
      var k :| 0 <= k < |signals| && signals[k] == s;
      assert added[k] in added;
    }
  }

  lemma SignalsConsistent(w: World, req: Verification.Request, now: Time)
    requires VerifyLaws.PassesGates(w, req, now)
    ensures var signals := VerifyLaws.SignalsOf(w, req, now);
            var r := IntegrityCheck.Assess(signals);
            && (IntegrityCheck.Denies(signals) <==> IntegrityCheck.Deny in r.actions)
            && (IntegrityCheck.Denies(signals) <==> exists s | s in signals :: s.answer.EventAction() == DenyAction)
            && (IntegrityCheck.Denies(signals) ==> r.score >= 90 && r.level == High)
  {
    hide IntegrityCheck.Signals, IntegrityCheck.Assess, Verification.ReportedRelease;
    var appId := VerifyLaws.LicenseOf(w, req, now).appId;
    IntegrityCheck.DenialIsConsistent(
      Verification.ReportedRelease(w.data, appId, req.platform, req.integrity), req.integrity);
  }

  lemma VerifyLogs(w: World, req: Verification.Request, now: Time)
    requires VerifyLaws.Heard(w, req, now) && VerifyLaws.PassesGates(w, req, now)
    ensures Logged(w, Verification.Verify(w, req, now).0, VerifyLaws.SignalsOf(w, req, now))
  {
    hide Verification.GateLicense, Verification.GateDevice, Verification.Bind, Verification.SeeDevice,
      Verification.SignalsOn, Logged, Verification.RefusalRisk;
    VerifyLaws.NotBlank(req);
    var w1 := w.(challenges := Challenges.Consume(w.challenges, req.challenge.value, now));
    VerifyLaws.SameGates(w, w1, req, now);
    BindLogs(w1, req, now);
    LoggedSame(w1, Verification.Bind(w1, req, Verification.GateLicense(w1.data, w1.issued, req, now), now).0, w,
               Verification.Verify(w, req, now).0, VerifyLaws.SignalsOf(w, req, now));
  }

  lemma LoggedSame(a: World, a': World, b: World, b': World, signals: seq<IntegrityCheck.Signal>)
    requires Logged(a, a', signals)
    requires b.data.riskEvents == a.data.riskEvents && b'.data.riskEvents == a'.data.riskEvents
    ensures Logged(b, b', signals)
  {
  }
}
