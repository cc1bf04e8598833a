/** Every step keeps the invariant and loses nothing; so does every run. */
module StepInvariants {
  import opened Types
  import opened Lookup
  import opened World
  import opened Invariants
  import opened Machine
  import Challenges
  import IntegrityCheck
  import Policies
  import RateLimit
  import Steps
  import Text
  import Verification

  // ----- verification, stage by stage -----

  lemma SweepKeeps(w: World, t: Challenges.Table, now: Time)
    requires t.Items <= w.challenges.Items
    ensures Keeps(w, w.(challenges := Challenges.Sweep(t, now)))
  {
    var swept := Challenges.Sweep(t, now);
    assert forall id | id in swept :: (id, swept[id]) in t.Items;
    ChallengesKeep(w, swept, w.nextId);
  }

  /** What a request that passed the application and licence gates has shown. */
  lemma PassMeans(d: Data, issued: set<Claims>, req: Verification.Request, now: Time)
    ensures var g := Verification.GateLicense(d, issued, req, now);
            g.Pass? ==>
              var app, l := d.apps[g.app], d.licenses[g.license];
              && g.app == AppNamed(d.apps, req.appId) && app.status == AppActive
              && l.appId == app.appKey && l.status == Active && now <= l.expiresAt
              && (if req.licenseKey != "" then g.claims == None && l.keyHash == Sha256(req.licenseKey)
                  else
                    && g.claims == req.token && req.token.Some? && req.token.value in issued
                    && req.token.value.appId == app.appKey && l.id == req.token.value.licenseId)
  {
  }

  lemma AfterStopKeeps(w: World, req: Verification.Request, now: Time)
    requires Verification.GateLicense(w.data, w.issued, req, now).Stop?
    ensures Keeps(w, Verification.AfterStop(w, Verification.GateLicense(w.data, w.issued, req, now), now))
  {
    hide Valid, Grows;
    var g := Verification.GateLicense(w.data, w.issued, req, now);
    if g.code == Verification.LicenseExpired {
      LicenseKeeps(w, g.license, w.data.licenses[g.license].(status := Expired));
    } else if g.code == Verification.AppMismatched {
      RiskKeeps(w, w.data.apps[g.app].appKey, None, w.data.licenses[g.license].id, TokenAppMismatch, High, DenyAction,
                now);
    } else {
      KeepsSame(w);
    }
  }

  lemma KeepsSame(w: World)
    ensures Keeps(w, w)
  {
  }

  /** The device of a request is the one with its fingerprint, new or known; only devices change. */
  lemma SeeDeviceMeans(w: World, req: Verification.Request, now: Time)
    ensures var (w', i) := Verification.SeeDevice(w, req, now);
            && w' == w.(data := w.data.(devices := w'.data.devices), nextId := w'.nextId)
            && w'.data.devices[i].fingerprint == Sha256(req.fingerprint)
            && i == DeviceByFingerprint(w.data.devices, Sha256(req.fingerprint))
            && (i < |w.data.devices| ==>
                  && w'.data.devices[i].status == w.data.devices[i].status
                  && w'.data.devices[i].id == w.data.devices[i].id)
            && (i == |w.data.devices| ==> w'.data.devices[i].status == DeviceActive && w'.data.devices[i].id == w.nextId)
    ensures Keeps(w, Verification.SeeDevice(w, req, now).0)
  {
    var (w', i) := Verification.SeeDevice(w, req, now);
    assert w'.data == w.data.(devices := w'.data.devices);
    hide Valid, Grows;
    if i < |w.data.devices| {
      DeviceKeeps(w, i, w'.data.devices[i]);
    } else {
      AddDeviceKeeps(w, w'.data.devices[i]);
    }
  }

  lemma FoundById(w: World, l: nat, d: nat)
    requires Valid(w) && l < |w.data.licenses| && d < |w.data.devices|
    ensures LicenseById(w.data.licenses, w.data.licenses[l].id) == l
    ensures DeviceById(w.data.devices, w.data.devices[d].id) == d
  {
  }

  /** Activating leaves exactly that pair active, touching no other activation, and nothing but activations. */
  lemma ActivateKeeps(w: World, l: nat, i: nat, claims: Option<Claims>, appKey: string, now: Time)
    requires l < |w.data.licenses| && i < |w.data.devices| && w.data.licenses[l].appId == appKey
    requires IsKey(w.data.apps, appKey)
    requires !Verification.GateDevice(w.data, w.data.licenses[l], w.data.devices[i], claims).Turned?
    ensures var lic, v := w.data.licenses[l], w.data.devices[i];
            var g := Verification.GateDevice(w.data, lic, v, claims);
            var w' := Verification.Activate(w, g, lic.id, v.id, appKey, now);
            && w' == w.(data := w.data.(activations := w'.data.activations), nextId := w'.nextId)
            && Keeps(w, w')
            && var k := ActivationFor(w'.data.activations, lic.id, v.id);
               k < |w'.data.activations| && w'.data.activations[k].status == ActivationActive
  {
    var lic, v := w.data.licenses[l], w.data.devices[i];
    var g := Verification.GateDevice(w.data, lic, v, claims);
    var w' := Verification.Activate(w, g, lic.id, v.id, appKey, now);
    if Valid(w) {
      FoundById(w, l, i);
    }
    hide Valid, Grows;
    var k := ActivationFor(w.data.activations, lic.id, v.id);
    if g.Fresh? {
      var a := w'.data.activations[|w.data.activations|];
      if Valid(w) {
        AddActivationKeeps(w, a);
      }
      assert ActivationFor(w'.data.activations, lic.id, v.id) == k;
    } else {
      ActivationsKeep(w, w'.data.activations);
      assert ActivationFor(w'.data.activations, lic.id, v.id) == k;
    }
  }

  /** Logging signals appends one event for each, and touches nothing else. */
  lemma {:induction false} LogMeans(w: World, appId: string, deviceId: Id, licenseId: Id,
                                    signals: seq<IntegrityCheck.Signal>, now: Time)
    ensures var w' := Verification.LogSignals(w, appId, deviceId, licenseId, signals, now);
            && w' == w.(data := w.data.(riskEvents := w'.data.riskEvents), nextId := w.nextId + |signals|)
            && |w'.data.riskEvents| == |w.data.riskEvents| + |signals|
            && w.data.riskEvents <= w'.data.riskEvents
            && (forall k | 0 <= k < |signals| ::
                  w'.data.riskEvents[|w.data.riskEvents| + k]
                  == RiskEvent(w.nextId + k, appId, Some(deviceId), licenseId, signals[k].eventType,
                               signals[k].answer.Severity(), signals[k].answer.EventAction(), now, None))
            && Keeps(w, w')
  {
    hide Valid, Grows;
    if signals == [] {
      KeepsSame(w);
    } else {
      var n := |signals| - 1;
      LogMeans(w, appId, deviceId, licenseId, signals[..n], now);
      var w1 := Verification.LogSignals(w, appId, deviceId, licenseId, signals[..n], now);
      var s := signals[n];
      RiskKeeps(w1, appId, Some(deviceId), licenseId, s.eventType, s.answer.Severity(), s.answer.EventAction(), now);
      KeepsTransitive(w, w1, Verification.LogSignals(w, appId, deviceId, licenseId, signals, now));
    }
  }

  lemma ExamineKeeps(w: World, device: nat, appId: string, licenseId: Id, platform: string, i: Integrity, now: Time)
    requires device < |w.data.devices|
    ensures var w' := Verification.Examine(w, device, appId, licenseId, platform, i, now);
            && w' == w.(data := w.data.(devices := w'.data.devices, riskEvents := w'.data.riskEvents,
                                        reports := w'.data.reports), nextId := w'.nextId)
            && |w'.data.devices| == |w.data.devices|
            && (forall k | 0 <= k < |w.data.devices| ::
                  && w'.data.devices[k].status == w.data.devices[k].status
                  && w'.data.devices[k].id == w.data.devices[k].id
                  && w'.data.devices[k].fingerprint == w.data.devices[k].fingerprint)
            && Keeps(w, w')
  {
    hide Valid, Grows;
    var v := w.data.devices[device];
    var signals := Verification.SignalsOn(w.data, appId, platform, i);
    var release := Verification.ReportedRelease(w.data, appId, platform, i);
    var w1 := Verification.LogSignals(w, appId, v.id, licenseId, signals, now);
    LogMeans(w, appId, v.id, licenseId, signals, now);
    var v' := v.(riskScore := IntegrityCheck.Assess(signals).score, lastSeenAt := now);
    var w2 := WithDevice(w1, device, v');
    DeviceKeeps(w1, device, v');
    ReportKeeps(w2, appId, v.id, if release.Some? then Some(release.value.id) else None, platform, i, now);
    KeepsTransitive(w, w1, w2);
    KeepsTransitive(w, w2, Verification.Examine(w, device, appId, licenseId, platform, i, now));
  }

  lemma GrantKeeps(w: World, l: nat, v: Device, appKey: string, risk: IntegrityCheck.RiskResult, now: Time)
    requires Valid(w) && l < |w.data.licenses| && w.data.licenses[l].appId == appKey
    requires ActivationFor(w.data.activations, w.data.licenses[l].id, v.id) < |w.data.activations|
    ensures Keeps(w, Verification.Grant(w, w.data.licenses[l], v, appKey, risk, now).0)
  {
    var lic := w.data.licenses[l];
    var c := Verification.GrantedClaims(w, lic, v.id, appKey, risk.level, now);
    assert LicenseById(w.data.licenses, lic.id) == l;
    hide Valid, Grows;
    IssueKeeps(w, c);
  }

  lemma BindKeeps(w: World, req: Verification.Request, now: Time)
    requires Valid(w) && Verification.GateLicense(w.data, w.issued, req, now).Pass?
    ensures Keeps(w, Verification.Bind(w, req, Verification.GateLicense(w.data, w.issued, req, now), now).0)
  {
    hide Valid, Grows, Verification.GateLicense, Verification.GateDevice, Verification.SeeDevice, Verification.Activate,
      Verification.Examine, Verification.Grant;
    var g := Verification.GateLicense(w.data, w.issued, req, now);
    PassMeans(w.data, w.issued, req, now);
    var appKey, l := w.data.apps[g.app].appKey, w.data.licenses[g.license];
    var (w1, i) := Verification.SeeDevice(w, req, now);
    SeeDeviceMeans(w, req, now);
    var v := w1.data.devices[i];
    match Verification.GateDevice(w1.data, l, v, g.claims)
    case Turned(code, eventType, severity) =>
      RiskKeeps(w1, appKey, Some(v.id), l.id, eventType, severity, DenyAction, now);
      KeepsTransitive(w, w1, Verification.Bind(w, req, g, now).0);
    case gate =>
      var w2 := Verification.Activate(w1, gate, l.id, v.id, appKey, now);
      assert w1.data.apps[g.app] in w1.data.apps;
      ActivateKeeps(w1, g.license, i, g.claims, appKey, now);
      var w3 := Verification.Examine(w2, i, appKey, l.id, req.platform, req.integrity, now);
      ExamineKeeps(w2, i, appKey, l.id, req.platform, req.integrity, now);
      KeepsTransitive(w, w1, w2);
      KeepsTransitive(w, w2, w3);
      var signals := Verification.SignalsOn(w2.data, appKey, req.platform, req.integrity);
      if !IntegrityCheck.Denies(signals) {
        var risk := IntegrityCheck.Assess(signals);
        GrantKeeps(w3, g.license, v, appKey, risk, now);
        KeepsTransitive(w, w3, Verification.Grant(w3, l, v, appKey, risk, now).0);
      }
  }

  lemma AttemptKeeps(w: World, req: Verification.Request, now: Time)
    requires req.challenge.Some?
    ensures Keeps(w, Verification.Attempt(w, req, now).0)
  {
    hide Valid, Grows, Verification.GateLicense, Verification.Bind, Verification.AfterStop;
    var t := w.challenges - {req.challenge.value};
    assert t.Items <= w.challenges.Items;
    SweepKeeps(w, t, now);
    var w1 := w.(challenges := Challenges.Consume(w.challenges, req.challenge.value, now));
    if Valid(w) && Verification.ChallengeAccepted(w, req, now) {
      var g := Verification.GateLicense(w1.data, w1.issued, req, now);
      if g.Stop? {
        AfterStopKeeps(w1, req, now);
        KeepsTransitive(w, w1, Verification.AfterStop(w1, g, now));
      } else {
        BindKeeps(w1, req, now);
        KeepsTransitive(w, w1, Verification.Bind(w1, req, g, now).0);
      }
    }
  }

  lemma VerifyKeeps(w: World, req: Verification.Request, now: Time)
    ensures Keeps(w, Verification.Verify(w, req, now).0)
  {
    hide Valid, Grows, Verification.Attempt;
    var k := Verification.RateKey(req);
    if RateLimit.IsLimited(w.limits, w.rates, k, now) {
      KeepsSame(w);
    } else if Verification.Blank(req) {
      OthersKeep(w, Verification.Verify(w, req, now).0);
    } else {
      AttemptKeeps(w, req, now);
      var w' := Verification.Attempt(w, req, now).0;
      OthersKeep(w', Verification.Verify(w, req, now).0);
      KeepsTransitive(w, w', Verification.Verify(w, req, now).0);
    }
  }

  // ----- the other requests -----

  lemma IssueChallengeKeeps(w: World, req: Steps.ChallengeRequest, now: Time)
    ensures Keeps(w, Steps.IssueChallenge(w, req, now).0)
  {
    var w' := Steps.IssueChallenge(w, req, now).0;
    var swept := Challenges.Sweep(w.challenges, now);
    hide Valid, Grows;
    if w'.nextId == w.nextId {
      OthersKeep(w, w');
    } else {
      IssuedChallengesOk(w, swept, req, now);
      ChallengesKeep(w, w'.challenges, w.nextId + 1);
      var w1 := w.(challenges := w'.challenges, nextId := w.nextId + 1);
      OthersKeep(w1, w');
      KeepsTransitive(w, w1, w');
    }
  }

  lemma IssuedChallengesOk(w: World, swept: Challenges.Table, req: Steps.ChallengeRequest, now: Time)
    requires swept == Challenges.Sweep(w.challenges, now)
    ensures Valid(w) ==> ChallengesOk(swept, w.nextId + 1)
    ensures Valid(w) ==>
              ChallengesOk(Challenges.Issue(swept, w.nextId, req.nonce, req.appId, req.installId, now), w.nextId + 1)
  {
  }

  lemma TouchActivationKeeps(w: World, c: Claims, now: Time)
    ensures Keeps(w, Steps.TouchActivation(w, c, now))
  {
    hide Valid, Grows;
    var w' := Steps.TouchActivation(w, c, now);
    if w' == w {
      KeepsSame(w);
    } else {
      ActivationsKeep(w, w'.data.activations);
    }
  }

  lemma TouchDeviceKeeps(w: World, id: Id, now: Time, score: int)
    ensures Keeps(w, Steps.TouchDevice(w, id, now))
    ensures Keeps(w, Steps.ScoreDevice(w, id, score))
  {
    hide Valid, Grows;
    var i := DeviceById(w.data.devices, id);
    if i == |w.data.devices| {
      KeepsSame(w);
    } else {
      DeviceKeeps(w, i, w.data.devices[i].(lastSeenAt := now));
      DeviceKeeps(w, i, w.data.devices[i].(riskScore := score));
    }
  }

  lemma ExamineBeatKeeps(w: World, c: Claims, platform: string, i: Integrity, now: Time)
    ensures Keeps(w, Steps.ExamineBeat(w, c, platform, i, now))
  {
    hide Valid, Grows, Steps.ScoreDevice;
    var signals := Verification.SignalsOn(w.data, c.appId, platform, i);
    var release := Verification.ReportedRelease(w.data, c.appId, platform, i);
    var w1 := Verification.LogSignals(w, c.appId, c.deviceId, c.licenseId, signals, now);
    LogMeans(w, c.appId, c.deviceId, c.licenseId, signals, now);
    var w2 := Steps.ScoreDevice(w1, c.deviceId, IntegrityCheck.Assess(signals).score);
    TouchDeviceKeeps(w1, c.deviceId, now, IntegrityCheck.Assess(signals).score);
    ReportKeeps(w2, c.appId, c.deviceId, if release.Some? then Some(release.value.id) else None, platform, i, now);
    KeepsTransitive(w, w1, w2);
    KeepsTransitive(w, w2, Steps.ExamineBeat(w, c, platform, i, now));
  }

  lemma HeartbeatKeeps(w: World, req: Steps.HeartbeatRequest, now: Time)
    ensures Keeps(w, Steps.Heartbeat(w, req, now).0)
  {
    hide Valid, Grows, Steps.TouchActivation, Steps.TouchDevice, Steps.ExamineBeat, Steps.WrongInstall, Steps.Evidence,
      Steps.TokenGate;
    var c := req.token;
    var w' := Steps.Heartbeat(w, req, now).0;
    if Steps.TokenGate(w, req.appId, c, now) != Steps.Ok {
      KeepsSame(w);
    } else {
      var w1 := Steps.TouchActivation(w, c, now);
      TouchActivationKeeps(w, c, now);
      if Steps.WrongInstall(w1.data, c, req.installId) {
        RiskKeeps(w1, c.appId, Some(c.deviceId), c.licenseId, TokenDeviceMismatch, High, DenyAction, now);
        KeepsTransitive(w, w1, w');
      } else {
        var w2 := Steps.TouchDevice(w1, c.deviceId, now);
        TouchDeviceKeeps(w1, c.deviceId, now, 0);
        KeepsTransitive(w, w1, w2);
        if Steps.Evidence(req).Some? {
          ExamineBeatKeeps(w2, c, Steps.PlatformOf(w2, req), Steps.Evidence(req).value, now);
          KeepsTransitive(w, w2, w');
        }
      }
    }
  }

  lemma CapabilityCheckKeeps(w: World, req: Steps.CapabilityRequest, now: Time)
    ensures Keeps(w, Steps.CapabilityCheck(w, req, now).0)
  {
    hide Valid, Grows, Steps.CapabilityGate, Policies.OnlineDecision;
    KeepsSame(w);
    if Steps.CapabilityGate(w, req, now) == Steps.Ok {
      CapabilityGateMeans(w, req, now);
      var c := req.token.value;
      var l := w.data.licenses[LicenseById(w.data.licenses, c.licenseId)];
      var d := Policies.OnlineDecision(w.data.policies, c.appId, l.entitlements, req.capability);
      RiskKeeps(w, c.appId, Some(c.deviceId), c.licenseId, CapabilityDenied, Steps.DenialSeverity(d.effectiveMode),
                ModeAction(d.effectiveMode), now);
    }
  }

  /** A capability is only decided for a good token of an active licence and an active activation. */
  lemma CapabilityGateMeans(w: World, req: Steps.CapabilityRequest, now: Time)
    requires Steps.CapabilityGate(w, req, now) == Steps.Ok
    ensures req.token.Some? && Steps.TokenGood(w, req.token.value, now)
    ensures var c := req.token.value;
            var l := LicenseById(w.data.licenses, c.licenseId);
            var a := ActivationFor(w.data.activations, c.licenseId, c.deviceId);
            && l < |w.data.licenses| && w.data.licenses[l].status == Active && w.data.licenses[l].appId == c.appId
            && a < |w.data.activations| && w.data.activations[a].status == ActivationActive
  {
  }

  lemma DeactivateKeeps(w: World, req: Steps.DeactivateRequest, now: Time)
    ensures Keeps(w, Steps.Deactivate(w, req, now).0)
  {
    hide Valid, Grows, Steps.TouchDevice;
    var c := req.token;
    var w' := Steps.Deactivate(w, req, now).0;
    KeepsSame(w);
    RiskKeeps(w, c.appId, Some(c.deviceId), c.licenseId, TokenDeviceMismatch, High, DenyAction, now);
    var w1 := Steps.SwitchOff(w, c, now);
    if w1 != w {
      ActivationsKeep(w, w1.data.activations);
    }
    TouchDeviceKeeps(w1, c.deviceId, now, 0);
    KeepsTransitive(w, w1, Steps.TouchDevice(w1, c.deviceId, now));
  }

  lemma ActOnLicenseKeeps(w: World, id: Id, action: Steps.LicenseAction, admin: string, now: Time)
    ensures Keeps(w, Steps.ActOnLicense(w, id, action, admin, now).0)
  {
    hide Valid, Grows;
    var i := LicenseById(w.data.licenses, id);
    if i == |w.data.licenses| {
      KeepsSame(w);
    } else {
      var l := w.data.licenses[i].(status := Steps.StatusAfter(action), updatedAt := now);
      var w1 := WithLicense(w, i, l);
      LicenseKeeps(w, i, l);
      var blocked := Steps.BlockActivations(w1.data.activations, id);
      var w2 := if action == Steps.Revoke then WithActivations(w1, blocked) else w1;
      if action == Steps.Revoke {
        ActivationsKeep(w1, Steps.BlockActivations(w1.data.activations, id));
      } else {
        KeepsSame(w1);
      }
      KeepsTransitive(w, w1, w2);
      AuditKeeps(w2, admin, Steps.LicenseAudit(action), OnLicense(id), now);
      KeepsTransitive(w, w2, Steps.ActOnLicense(w, id, action, admin, now).0);
    }
  }

  lemma CreateLicenseKeeps(w: World, req: Steps.LicenseRequest, key: string, admin: string, now: Time)
    ensures Keeps(w, Steps.CreateLicense(w, req, key, admin, now).0)
  {
    hide Valid, Grows;
    KeepsSame(w);
    var l := Steps.NewLicense(w, req, key, now);
    AddLicenseKeeps(w, l);
    var w1 := AddLicense(w, l);
    AuditKeeps(w1, admin, LicenseCreate, OnLicense(l.id), now);
    KeepsTransitive(w, w1, WithAudit(w1, admin, LicenseCreate, OnLicense(l.id), now));
  }

  lemma ActOnDeviceKeeps(w: World, id: Id, action: Steps.DeviceAction, admin: string, now: Time)
    ensures Keeps(w, Steps.ActOnDevice(w, id, action, admin, now).0)
  {
    hide Valid, Grows;
    var i := DeviceById(w.data.devices, id);
    if i == |w.data.devices| {
      KeepsSame(w);
    } else {
      var v := w.data.devices[i].(lastSeenAt := now);
      var v' := match action
        case Block => v.(status := DeviceBlocked)
        case Unblock => v.(status := DeviceActive)
        case Unbind => v;
      DeviceKeeps(w, i, v');
      var w1 := WithDevice(w, i, v');
      var unbound := Steps.UnbindActivations(w1.data.activations, id, now);
      var w2 := if action == Steps.Unbind then WithActivations(w1, unbound) else w1;
      if action == Steps.Unbind {
        ActivationsKeep(w1, unbound);
      } else {
        KeepsSame(w1);
      }
      KeepsTransitive(w, w1, w2);
      AuditKeeps(w2, admin, Steps.DeviceAudit(action), OnDevice(id), now);
      KeepsTransitive(w, w2, Steps.ActOnDevice(w, id, action, admin, now).0);
    }
  }

  lemma ResolveRiskKeeps(w: World, id: Id, admin: string, now: Time)
    ensures Keeps(w, Steps.ResolveRisk(w, id, admin, now).0)
  {
    hide Valid, Grows;
    KeepsSame(w);
    var i := RiskEventById(w.data.riskEvents, id);
    if i < |w.data.riskEvents| && w.data.riskEvents[i].resolvedAt.None? {
      ResolveKeeps(w, i, admin, now);
    }
  }

  lemma RetireLeavesNone(keys: seq<SdkKey>, apps: seq<App>, appId: string, now: Time, k: SdkKey)
    requires KeysOk(keys, apps) && k.appId == appId && AppNamed(apps, appId) < |apps|
    ensures KeysOk(Steps.RetireKeys(keys, appId, now) + [k], apps)
  {
    var retired := Steps.RetireKeys(keys, appId, now);
    forall x | x in retired ensures AppNamed(apps, x.appId) < |apps| {
      var i :| 0 <= i < |retired| && retired[i] == x;
      assert keys[i] in keys;
    }
  }

  lemma RotateKeyKeeps(w: World, appId: string, admin: string, now: Time)
    ensures Keeps(w, Steps.RotateKey(w, appId, admin, now).0)
  {
    hide Valid, Grows, KeysOk;
    KeepsSame(w);
    if AppNamed(w.data.apps, appId) < |w.data.apps| {
      var k := SdkKey(w.nextId, appId, KeyActive, now, Some(now));
      var keys := Steps.RetireKeys(w.data.sdkKeys, appId, now) + [k];
      if KeysOk(w.data.sdkKeys, w.data.apps) {
        RetireLeavesNone(w.data.sdkKeys, w.data.apps, appId, now, k);
      }
      KeysKeep(w, keys);
      var w1 := w.(data := w.data.(sdkKeys := keys));
      var w2 := w1.(nextId := w.nextId + 1);
      OthersKeep(w1, w2);
      KeepsTransitive(w, w1, w2);
      AuditKeeps(w2, admin, SdkKeyRotate, OnApp(appId), now);
      KeepsTransitive(w, w2, Steps.RotateKey(w, appId, admin, now).0);
    }
  }

  lemma SeedPoliciesKeeps(w: World, appId: string, now: Time)
    ensures Keeps(w, Steps.SeedPolicies(w, appId, now))
  {
    hide Valid, Grows, Policies.VisionFlowDefaults, Policies.Seed;
    Policies.DefaultsTrimmed(appId, now);
    Policies.SeedOnlyAdds(w.data.policies, Policies.VisionFlowDefaults(appId, now));
    PoliciesKeep(w, Policies.Seed(w.data.policies, Policies.VisionFlowDefaults(appId, now)));
  }

  lemma SeedDefaultsKeeps(w: World, appId: string, admin: string, now: Time)
    ensures Keeps(w, Steps.SeedDefaults(w, appId, admin, now).0)
  {
    hide Valid, Grows, Steps.SeedPolicies;
    KeepsSame(w);
    SeedPoliciesKeeps(w, appId, now);
    var w1 := Steps.SeedPolicies(w, appId, now);
    AuditKeeps(w1, admin, PolicySeed, OnApp(appId), now);
    KeepsTransitive(w, w1, WithAudit(w1, admin, PolicySeed, OnApp(appId), now));
  }

  /** No key is filed yet under the name of a new application. */
  lemma NewKeyOk(keys: seq<SdkKey>, apps: seq<App>, a: App, k: SdkKey)
    requires KeysOk(keys, apps + [a]) && k.appId == a.appKey
    requires forall x | x in keys :: x.appId != a.appKey
    ensures KeysOk(keys + [k], apps + [a])
  {
    NameKept(apps, a, a.appKey);
    assert forall i | 0 <= i < |keys| :: keys[i] in keys;
  }

  lemma NewReleaseOk(rs: seq<Release>, apps: seq<App>, next: Id, r: Release)
    requires ReleasesOk(rs, apps, next) && r.id == next && AppNamed(apps, r.appId) < |apps|
    ensures ReleasesOk(rs + [r], apps, next + 1)
  {
  }

  lemma CreateAppKeeps(w: World, id: string, appKey: string, name: string, platform: string, version: string,
                       admin: string, now: Time)
    ensures Keeps(w, Steps.CreateApp(w, id, appKey, name, platform, version, admin, now).0)
  {
    hide Valid, Grows, KeysOk, ReleasesOk, Steps.SeedPolicies, Steps.IsVisionFlow;
    var w' := Steps.CreateApp(w, id, appKey, name, platform, version, admin, now).0;
    KeepsSame(w);
    if Valid(w) && appKey != "" && name != "" && AppNamed(w.data.apps, appKey) == |w.data.apps| {
      var app := App(id, appKey, AppActive);
      var apps := w.data.apps + [app];
      AddAppKeeps(w, app);
      var w1 := w.(data := w.data.(apps := apps));
      ValidParts(w);
      ValidParts(w1);
      NameKept(w.data.apps, app, appKey);
      var r := Steps.FirstRelease(w.nextId, appKey, platform, version, now);
      NewReleaseOk(w.data.releases, apps, w.nextId, r);
      ReleasesKeep(w1, w.data.releases + [r], w.nextId + 1);
      var w2 := w1.(data := w1.data.(releases := w.data.releases + [r]), nextId := w.nextId + 1);
      KeepsTransitive(w, w1, w2);
      var k := SdkKey(w.nextId + 1, appKey, KeyActive, now, None);
      NewKeyOk(w.data.sdkKeys, w.data.apps, app, k);
      KeysKeep(w2, w.data.sdkKeys + [k]);
      var w2' := w2.(data := w2.data.(sdkKeys := w.data.sdkKeys + [k]));
      var w3 := w2'.(nextId := w.nextId + 2);
      OthersKeep(w2', w3);
      KeepsTransitive(w, w2, w2');
      KeepsTransitive(w, w2', w3);
      var w4 := if Steps.IsVisionFlow(appKey) then Steps.SeedPolicies(w3, appKey, now) else w3;
      SeedPoliciesKeeps(w3, appKey, now);
      KeepsSame(w3);
      KeepsTransitive(w, w3, w4);
      AuditKeeps(w4, admin, AppCreate, OnApp(appKey), now);
      KeepsTransitive(w, w4, w');
    }
  }

  /** Keys and releases are filed under names of stored applications. */
  lemma ValidParts(w: World)
    requires Valid(w)
    ensures KeysOk(w.data.sdkKeys, w.data.apps) && ReleasesOk(w.data.releases, w.data.apps, w.nextId)
    ensures forall k | k in w.data.sdkKeys :: AppNamed(w.data.apps, k.appId) < |w.data.apps|
  {
  }

  lemma {:induction false} NormalizedTrimmed(appId: string, items: seq<Policy>, now: Time)
    ensures var r := Steps.NormalizeAll(appId, items, now);
            r.Some? ==> forall p | p in r.value :: Text.IsTrimmed(p.capability) && p.appId == appId
  {
    hide Policies.NormalizePolicy;
    if items != [] {
      NormalizedTrimmed(appId, items[..|items| - 1], now);
    }
  }

  lemma {:induction false} UpsertTrimmed(ps: seq<Policy>, batch: seq<Policy>)
    requires Policies.TrimmedCapabilities(ps) && Policies.TrimmedCapabilities(batch)
    ensures Policies.TrimmedCapabilities(Policies.UpsertAll(ps, batch))
  {
    hide Text.IsTrimmed, Policies.NormalizeMode;
    if batch != [] {
      var n := |batch| - 1;
      UpsertTrimmed(ps, batch[..n]);
      assert batch[n] in batch;
    }
  }

  lemma UpsertPoliciesKeeps(w: World, appId: string, items: seq<Policy>, admin: string, now: Time)
    ensures Keeps(w, Steps.UpsertPolicies(w, appId, items, admin, now).0)
  {
    hide Valid, Grows, Policies.UpsertAll, Steps.NormalizeAll;
    KeepsSame(w);
    var batch := Steps.NormalizeAll(appId, items, now);
    NormalizedTrimmed(appId, items, now);
    if batch.Some? {
      var ps := Policies.UpsertAll(w.data.policies, batch.value);
      if PoliciesOk(w.data.policies) {
        Policies.UpsertAllUnique(w.data.policies, batch.value);
        UpsertTrimmed(w.data.policies, batch.value);
      }
      PoliciesKeep(w, ps);
      var w1 := w.(data := w.data.(policies := ps));
      AuditKeeps(w1, admin, PolicyUpsert, OnApp(appId), now);
      KeepsTransitive(w, w1, WithAudit(w1, admin, PolicyUpsert, OnApp(appId), now));
    }
  }

  lemma UpdateSettingsKeeps(w: World, p: Steps.SettingsPatch, admin: string, now: Time)
    ensures Keeps(w, Steps.UpdateSettings(w, p, admin, now).0)
  {
    hide Valid, Grows;
    var w' := Steps.UpdateSettings(w, p, admin, now).0;
    var w1 := w.(data := w.data.(settings := w'.data.settings));
    OthersKeep(w, w1);
    AuditKeeps(w1, admin, SettingsUpdate, OnSettings, now);
    KeepsTransitive(w, w1, w');
  }

  lemma CreateReleaseKeeps(w: World, appId: string, r: Release, validate: bool, admin: string, now: Time)
    ensures Keeps(w, Steps.CreateRelease(w, appId, r, validate, admin, now).0)
  {
    hide Valid, Grows, ReleasesOk, Steps.MissingFields;
    KeepsSame(w);
    var w' := Steps.CreateRelease(w, appId, r, validate, admin, now).0;
    if w' != w && Valid(w) {
      ValidParts(w);
      NewReleaseOk(w.data.releases, w.data.apps, w.nextId, w'.data.releases[|w.data.releases|]);
      ReleasesKeep(w, w'.data.releases, w.nextId + 1);
      var w1 := w.(data := w.data.(releases := w'.data.releases), nextId := w.nextId + 1);
      AuditKeeps(w1, admin, ReleaseCreate, OnApp(appId), now);
      KeepsTransitive(w, w1, w');
    }
  }

  lemma PatchReleaseKeeps(w: World, appId: string, id: Id, p: Steps.ReleasePatch, admin: string, now: Time)
    ensures Keeps(w, Steps.PatchRelease(w, appId, id, p, admin, now).0)
  {
    hide Valid, Grows, Steps.MissingFields;
    KeepsSame(w);
    var w' := Steps.PatchRelease(w, appId, id, p, admin, now).0;
    if w' != w {
      var w1 := w.(data := w.data.(releases := w'.data.releases));
      assert w'.data.releases[ReleaseById(w.data.releases, appId, id)].id == id;
      ReleasesKeep(w, w'.data.releases, w.nextId);
      AuditKeeps(w1, admin, ReleaseUpdate, OnRelease(id), now);
      KeepsTransitive(w, w1, w');
    }
  }

  // ----- steps and runs -----

  /** Every request keeps the invariant and loses nothing. */
  lemma StepKeeps(w: World, call: Call)
    ensures Keeps(w, Step(w, call).0)
  {
    hide Valid, Grows;
    hide Verification.Verify, Steps.IssueChallenge, Steps.Heartbeat, Steps.CapabilityCheck, Steps.Deactivate,
      Steps.ActOnLicense, Steps.CreateLicense, Steps.ActOnDevice, Steps.ResolveRisk, Steps.RotateKey, Steps.CreateApp,
      Steps.UpsertPolicies, Steps.SeedDefaults, Steps.UpdateSettings, Steps.CreateRelease, Steps.PatchRelease;
    var now, admin := call.now, call.adminId;
    match call.command
    case SetRateLimit(limits) => OthersKeep(w, Step(w, call).0);
    case IssueChallenge(req) => IssueChallengeKeeps(w, req, now);
    case Verify(req) => VerifyKeeps(w, req, now);
    case Heartbeat(req) => HeartbeatKeeps(w, req, now);
    case CapabilityCheck(req) => CapabilityCheckKeeps(w, req, now);
    case Deactivate(req) => DeactivateKeeps(w, req, now);
    case ActOnLicense(id, action) => ActOnLicenseKeeps(w, id, action, admin, now);
    case CreateLicense(req, key) => CreateLicenseKeeps(w, req, key, admin, now);
    case ActOnDevice(id, action) => ActOnDeviceKeeps(w, id, action, admin, now);
    case ResolveRisk(id) => ResolveRiskKeeps(w, id, admin, now);
    case RotateKey(appId) => RotateKeyKeeps(w, appId, admin, now);
    case CreateApp(id, appKey, name, platform, version) =>
      CreateAppKeeps(w, id, appKey, name, platform, version, admin, now);
    case UpsertPolicies(appId, items) => UpsertPoliciesKeeps(w, appId, items, admin, now);
    case SeedDefaults(appId) => SeedDefaultsKeeps(w, appId, admin, now);
    case UpdateSettings(patch) => UpdateSettingsKeeps(w, patch, admin, now);
    case CreateRelease(appId, release, validate) => CreateReleaseKeeps(w, appId, release, validate, admin, now);
    case PatchRelease(appId, id, patch) => PatchReleaseKeeps(w, appId, id, patch, admin, now);
  }

  lemma ValidSelf(w: World)
    requires Valid(w)
    ensures Grows(w, w)
  {
  }

  /** From a valid state every run stays valid, and each later state extends each earlier one. */
  lemma {:induction false} RunKeeps(r: Run, i: nat, j: nat)
    requires IsRun(r) && Valid(r.states[0]) && i <= j < |r.states|
    ensures Valid(r.states[i]) && Valid(r.states[j])
    ensures Grows(r.states[i], r.states[j])
    decreases j
  {
    hide Valid, Grows, Step;
    if j == 0 {
      ValidSelf(r.states[0]);
    } else {
      RunKeeps(r, if i == j then j - 1 else i, j - 1);
      StepKeeps(r.states[j - 1], r.calls[j - 1]);
      assert Stepped(r, j - 1);
      if i == j {
        ValidSelf(r.states[j]);
      } else {
        GrowsTransitive(r.states[i], r.states[j - 1], r.states[j]);
      }
    }
  }
}
