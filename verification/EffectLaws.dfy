/** What an activate or verify request leaves behind in the store, in plain terms, whatever it is answered. */
module EffectLaws {
  import opened Types
  import opened Lookup
  import opened World
  import opened Invariants
  import opened Machine
  import opened Verification
  import ActivationLaws
  import Challenges
  import DecisionLaws
  import IntegrityCheck
  import RateLimit
  import ReplyLaws
  import ScoreLaws
  import StandingLaws
  import StepInvariants
  import Steps
  import VerifyLaws

  // ----- what is left, table by table -----

  /** The device with the fingerprint presented, new or known, as it is after it was seen. */
  function DeviceSeen(v: Device, req: Request, now: Time): Device {
    v.(osVersion := req.osVersion, machineName := Sha256(req.machineName), lastSeenAt := now)
  }

  function NewDevice(id: Id, req: Request, now: Time): Device {
    Device(id, Sha256(req.fingerprint), Sha256(req.installId), req.platform, req.osVersion, Sha256(req.machineName), 10,
           DeviceActive, now, now)
  }

  /** That device is stored as seen, and no other device changed; with a score, it was examined as well. */
  ghost predicate Recorded(a: seq<Device>, b: seq<Device>, req: Request, next: Id, now: Time, score: Option<int>) {
    var k := DeviceByFingerprint(a, Sha256(req.fingerprint));
    var seen := if k < |a| then DeviceSeen(a[k], req, now) else NewDevice(next, req, now);
    var left := if score.Some? then seen.(riskScore := score.value) else seen;
    b == if k < |a| then a[k := left] else a + [left]
  }

  /** One event more, but for its identifier this one. */
  ghost predicate OneMore(a: seq<RiskEvent>, b: seq<RiskEvent>, e: RiskEvent) {
    |b| == |a| + 1 && b[..|a|] == a && b[|a|] == e.(id := b[|a|].id)
  }

  /** The event a device gate logs, and how gravely. */
  function GateEvent(code: Code): (EventType, Severity)
    requires code in {BlockedDevice, DeviceMismatched, TokenDeactivated, LimitExceeded}
  {
    match code
    case BlockedDevice => (DeviceIsBlocked, High)
    case DeviceMismatched => (TokenDeviceMismatch, High)
    case TokenDeactivated => (TokenActivationInactive, Medium)
    case LimitExceeded => (DeviceLimitExceeded, Medium)
  }

  /** One event more for each sign the report shows, naming licence and device, graded and answered by its kind. */
  ghost predicate SignsLogged(a: seq<RiskEvent>, b: seq<RiskEvent>, release: Option<Release>, i: Integrity, appId: string,
                              deviceId: Id, licenseId: Id, now: Time)
  {
    && |a| <= |b| && b[..|a|] == a
    && (forall e :: ScoreLaws.Sign(release, i, e) <==> exists k | |a| <= k < |b| :: b[k].eventType == e)
    && (forall j, k | |a| <= j < k < |b| :: b[j].eventType != b[k].eventType)
    && forall k | |a| <= k < |b| ::
         var h := ScoreLaws.HandlingOf(b[k].eventType);
         b[k] == RiskEvent(b[k].id, appId, Some(deviceId), licenseId, b[k].eventType, h.severity, h.action, now, None)
  }

  /** One report more, of this. */
  ghost predicate ReportFiled(a: seq<Report>, b: seq<Report>, release: Option<Release>, i: Integrity, appId: string,
                              deviceId: Id, platform: string, now: Time)
  {
    && |b| == |a| + 1 && b[..|a|] == a
    && b[|a|] == Report(b[|a|].id, appId, deviceId, if release.Some? then Some(release.value.id) else None, platform, i,
                        now)
  }

  // ----- stage by stage -----

  lemma SeenRecorded(w: World, req: Request, now: Time)
    ensures var (w', i) := SeeDevice(w, req, now);
            && Recorded(w.data.devices, w'.data.devices, req, w.nextId, now, None)
            && i == DeviceByFingerprint(w.data.devices, Sha256(req.fingerprint)) < |w'.data.devices|
            && w'.data == w.data.(devices := w'.data.devices)
  {
    hide DeviceByFingerprint;
  }

  lemma GateEvents(d: Data, l: License, v: Device, claims: Option<Claims>)
    ensures var g := GateDevice(d, l, v, claims);
            g.Turned? ==>
              && g.code in {BlockedDevice, DeviceMismatched, TokenDeactivated, LimitExceeded}
              && (g.eventType, g.severity) == GateEvent(g.code)
  {
    hide ActiveDevices, ActivationFor;
  }

  lemma ExamineTells(w: World, device: nat, appId: string, licenseId: Id, platform: string, i: Integrity, now: Time)
    requires device < |w.data.devices|
    ensures var d, d' := w.data, Examine(w, device, appId, licenseId, platform, i, now).data;
            var v, release := d.devices[device], ReportedRelease(d, appId, platform, i);
            var score := IntegrityCheck.Assess(SignalsOn(d, appId, platform, i)).score;
            && d'.devices == d.devices[device := v.(riskScore := score, lastSeenAt := now)]
            && SignsLogged(d.riskEvents, d'.riskEvents, release, i, appId, v.id, licenseId, now)
            && ReportFiled(d.reports, d'.reports, release, i, appId, v.id, platform, now)
            && d'.activations == d.activations && d'.licenses == d.licenses
  {
    hide LogSignals, IntegrityCheck.Signals, ReportedRelease, IntegrityCheck.Assess, Keeps, SignsLogged;
    var v := w.data.devices[device];
    var signals := SignalsOn(w.data, appId, platform, i);
    StepInvariants.LogMeans(w, appId, v.id, licenseId, signals, now);
    var w' := LogSignals(w, appId, v.id, licenseId, signals, now);
    LoggedSigns(w.data.riskEvents, w'.data.riskEvents, ReportedRelease(w.data, appId, platform, i), i, appId, v.id,
                licenseId, w.nextId, now);
  }

  lemma LoggedSigns(a: seq<RiskEvent>, b: seq<RiskEvent>, release: Option<Release>, i: Integrity, appId: string,
                    deviceId: Id, licenseId: Id, next: Id, now: Time)
    requires var signals := IntegrityCheck.Signals(release, i);
             && |b| == |a| + |signals| && a <= b
             && forall k | 0 <= k < |signals| ::
                  b[|a| + k] == RiskEvent(next + k, appId, Some(deviceId), licenseId, signals[k].eventType,
                                          signals[k].answer.Severity(), signals[k].answer.EventAction(), now, None)
    ensures SignsLogged(a, b, release, i, appId, deviceId, licenseId, now)
  {
    hide IntegrityCheck.Signals, ScoreLaws.Sign, ScoreLaws.HandlingOf;
    ScoreLaws.SignalsTell(release, i);
    var signals := IntegrityCheck.Signals(release, i);
    forall e ensures ScoreLaws.Sign(release, i, e) <==> exists k | |a| <= k < |b| :: b[k].eventType == e {
      if s :| s in signals && s.eventType == e {
        var k :| 0 <= k < |signals| && signals[k] == s;
        assert b[|a| + k].eventType == e;
      }
      if k :| |a| <= k < |b| && b[k].eventType == e {
        assert b[|a| + (k - |a|)] == b[k] && signals[k - |a|] in signals;
      }
    }
    forall k | |a| <= k < |b|
      ensures b[k] == RiskEvent(b[k].id, appId, Some(deviceId), licenseId, b[k].eventType,
                                ScoreLaws.HandlingOf(b[k].eventType).severity,
                                ScoreLaws.HandlingOf(b[k].eventType).action, now, None)
    {
      assert b[|a| + (k - |a|)] == b[k] && signals[k - |a|] in signals;
    }
    forall j, k | |a| <= j < k < |b| ensures b[j].eventType != b[k].eventType {
      assert b[|a| + (j - |a|)] == b[j] && b[|a| + (k - |a|)] == b[k];
      assert signals[j - |a|].eventType != signals[k - |a|].eventType;
    }
  }

  // ----- a device turned away -----

  lemma TurnedAway(w: World, req: Request, now: Time)
    requires VerifyLaws.Heard(w, req, now) && GateLicense(w.data, w.issued, req, now).Pass?
    requires VerifyLaws.GateOfDevice(w, req, GateLicense(w.data, w.issued, req, now), now).Turned?
    ensures var g := GateLicense(w.data, w.issued, req, now);
            var l, v := w.data.licenses[g.license], VerifyLaws.DeviceOf(w, req, now);
            var w' := Verification.Verify(w, req, now).0;
            var code := VerifyLaws.GateOfDevice(w, req, g, now).code;
            && code in {BlockedDevice, DeviceMismatched, TokenDeactivated, LimitExceeded}
            && Recorded(w.data.devices, w'.data.devices, req, w.nextId, now, None)
            && OneMore(w.data.riskEvents, w'.data.riskEvents,
                       RiskEvent(0, l.appId, Some(v.id), l.id, GateEvent(code).0, GateEvent(code).1, DenyAction, now,
                                 None))
            && w'.data.activations == w.data.activations && w'.data.licenses == w.data.licenses
            && w'.data.reports == w.data.reports
  {
    hide GateLicense, GateDevice, SeeDevice, ChallengeAccepted, RateLimit.IsLimited, RateLimit.Record, RefusalRisk, Blank,
      Recorded;
    VerifyLaws.NotBlank(req);
    StepInvariants.PassMeans(w.data, w.issued, req, now);
    var w1 := w.(challenges := Challenges.Consume(w.challenges, req.challenge.value, now));
    VerifyLaws.SameSight(w, w1, req, now);
    SeenRecorded(w1, req, now);
    var (w2, i) := SeeDevice(w1, req, now);
    var g := GateLicense(w.data, w.issued, req, now);
    GateEvents(w2.data, w.data.licenses[g.license], w2.data.devices[i], g.claims);
  }

  // ----- past the gates -----

  lemma GrantKeepsData(w: World, l: License, v: Device, appKey: string, risk: IntegrityCheck.RiskResult, now: Time)
    ensures Grant(w, l, v, appKey, risk, now).0.data == w.data
  {
  }

  lemma Passed(w: World, req: Request, now: Time)
    requires VerifyLaws.Heard(w, req, now) && VerifyLaws.PassesGates(w, req, now)
    ensures var l, v := VerifyLaws.LicenseOf(w, req, now), VerifyLaws.DeviceOf(w, req, now);
            var d, d' := w.data, Verification.Verify(w, req, now).0.data;
            var release := ReportedRelease(d, l.appId, req.platform, req.integrity);
            var score := IntegrityCheck.Assess(IntegrityCheck.Signals(release, req.integrity)).score;
            && Recorded(d.devices, d'.devices, req, w.nextId, now, Some(score))
            && SignsLogged(d.riskEvents, d'.riskEvents, release, req.integrity, l.appId, v.id, l.id, now)
            && ReportFiled(d.reports, d'.reports, release, req.integrity, l.appId, v.id, req.platform, now)
            && d'.licenses == d.licenses
  {
    hide GateLicense, GateDevice, SeeDevice, Examine, ChallengeAccepted, RateLimit.IsLimited, RateLimit.Record,
      RefusalRisk, Blank, Grant, IntegrityCheck.Signals, IntegrityCheck.Assess, IntegrityCheck.Denies, ReportedRelease,
      SignsLogged, ReportFiled;
    VerifyLaws.NotBlank(req);
    StepInvariants.PassMeans(w.data, w.issued, req, now);
    var w1 := w.(challenges := Challenges.Consume(w.challenges, req.challenge.value, now));
    VerifyLaws.SameSight(w, w1, req, now);
    SeenRecorded(w1, req, now);
    var (w2, i) := SeeDevice(w1, req, now);
    var g := GateLicense(w.data, w.issued, req, now);
    var l, v := w.data.licenses[g.license], w2.data.devices[i];
    var w3 := Activate(w2, GateDevice(w2.data, l, v, g.claims), l.id, v.id, l.appId, now);
    ExamineTells(w3, i, l.appId, l.id, req.platform, req.integrity, now);
    SameReported(w.data, w3.data, l.appId, req.platform, req.integrity);
    var w4 := Examine(w3, i, l.appId, l.id, req.platform, req.integrity, now);
    GrantKeepsData(w4, l, v, l.appId, IntegrityCheck.Assess(SignalsOn(w3.data, l.appId, req.platform, req.integrity)),
                   now);
  }

  lemma SameReported(a: Data, b: Data, appId: string, platform: string, i: Integrity)
    requires a.releases == b.releases
    ensures ReportedRelease(a, appId, platform, i) == ReportedRelease(b, appId, platform, i)
  {
  }

  // ----- the whole, by answer -----

  /** This licence is marked expired, and no other changed. */
  ghost predicate MarkedExpired(a: seq<License>, b: seq<License>, id: Id) {
    && |b| == |a|
    && forall k | 0 <= k < |a| :: b[k] == if a[k].id == id then a[k].(status := Expired) else a[k]
  }

  /** The device of the request, as stored afterwards. */
  function DeviceStored(d: Data, req: Request): Option<Device> {
    var k := DeviceByFingerprint(d.devices, Sha256(req.fingerprint));
    if k < |d.devices| then Some(d.devices[k]) else None
  }

  /** Its device and its report are on record, with the score and the events the report's signs call for. */
  ghost predicate Examined(d: Data, d': Data, req: Request, l: License, next: Id, now: Time) {
    var release := ReportedRelease(d, l.appId, req.platform, req.integrity);
    var total := 10 + ScoreLaws.Total(release, req.integrity);
    && Recorded(d.devices, d'.devices, req, next, now, Some(if total > 100 then 100 else total))
    && DeviceStored(d', req).Some?
    && var v := DeviceStored(d', req).value;
       && SignsLogged(d.riskEvents, d'.riskEvents, release, req.integrity, l.appId, v.id, l.id, now)
       && ReportFiled(d.reports, d'.reports, release, req.integrity, l.appId, v.id, req.platform, now)
       && d'.licenses == d.licenses
  }

  /** Its device is on record, and an event that says why it was turned away; nothing else is. */
  ghost predicate TurnedFrom(d: Data, d': Data, req: Request, l: License, code: Code, next: Id, now: Time) {
    && code in {BlockedDevice, DeviceMismatched, TokenDeactivated, LimitExceeded}
    && Recorded(d.devices, d'.devices, req, next, now, None)
    && DeviceStored(d', req).Some?
    && OneMore(d.riskEvents, d'.riskEvents,
               RiskEvent(0, l.appId, Some(DeviceStored(d', req).value.id), l.id, GateEvent(code).0, GateEvent(code).1,
                         DenyAction, now, None))
    && d'.activations == d.activations && d'.licenses == d.licenses && d'.reports == d.reports
  }

  lemma RecordedDevice(w: World, req: Request, now: Time, b: seq<Device>, score: Option<int>)
    requires Recorded(w.data.devices, b, req, w.nextId, now, score)
    ensures var k := DeviceByFingerprint(b, Sha256(req.fingerprint));
            && k < |b| && b[k].id == SeeDevice(w, req, now).0.data.devices[SeeDevice(w, req, now).1].id
  {
    var a, h := w.data.devices, Sha256(req.fingerprint);
    var k := DeviceByFingerprint(a, h);
    assert b[k].fingerprint == h;
    assert forall j | 0 <= j < k :: b[j] == a[j];
    assert DeviceByFingerprint(b, h) == k;
  }

  lemma PassedExamined(w: World, req: Request, now: Time)
    requires VerifyLaws.Heard(w, req, now) && VerifyLaws.PassesGates(w, req, now)
    ensures Examined(w.data, Verification.Verify(w, req, now).0.data, req, VerifyLaws.LicenseOf(w, req, now), w.nextId,
                     now)
  {
    hide Verification.Verify, VerifyLaws.Heard, VerifyLaws.PassesGates, VerifyLaws.LicenseOf, Recorded, SignsLogged,
      ReportFiled, IntegrityCheck.Signals, IntegrityCheck.Assess, ReportedRelease, ScoreLaws.Total, SeeDevice;
    Passed(w, req, now);
    var d, l := w.data, VerifyLaws.LicenseOf(w, req, now);
    ScoreLaws.ScoreTells(ReportedRelease(d, l.appId, req.platform, req.integrity), req.integrity);
    var total := 10 + ScoreLaws.Total(ReportedRelease(d, l.appId, req.platform, req.integrity), req.integrity);
    RecordedDevice(w, req, now, Verification.Verify(w, req, now).0.data.devices,
                   Some(if total > 100 then 100 else total));
  }

  lemma TurnedTold(w: World, req: Request, now: Time)
    requires VerifyLaws.Heard(w, req, now) && GateLicense(w.data, w.issued, req, now).Pass?
    requires VerifyLaws.GateOfDevice(w, req, GateLicense(w.data, w.issued, req, now), now).Turned?
    ensures var g := GateLicense(w.data, w.issued, req, now);
            TurnedFrom(w.data, Verification.Verify(w, req, now).0.data, req, w.data.licenses[g.license],
                       VerifyLaws.GateOfDevice(w, req, g, now).code, w.nextId, now)
  {
    hide Verification.Verify, VerifyLaws.Heard, VerifyLaws.GateOfDevice, GateLicense, Recorded, SeeDevice, OneMore;
    TurnedAway(w, req, now);
    RecordedDevice(w, req, now, Verification.Verify(w, req, now).0.data.devices, None);
  }

  /** A request stopped before its device is looked at leaves the store as it was, but for an expired licence, marked. */
  lemma StoppedTold(w: World, req: Request, now: Time)
    requires Valid(w)
    requires !VerifyLaws.Heard(w, req, now) || GateLicense(w.data, w.issued, req, now).Stop?
    ensures var d, d' := w.data, Verification.Verify(w, req, now).0.data;
            if VerifyLaws.Heard(w, req, now) && ReplyLaws.LicenseRefusal(w, req, now) == Some(LicenseExpired) then
              && d' == d.(licenses := d'.licenses)
              && MarkedExpired(d.licenses, d'.licenses, DecisionLaws.Presented(w, req).value.id)
            else d' == d
  {
    hide Valid, GateLicense, ChallengeAccepted, RateLimit.IsLimited, RateLimit.Record, RefusalRisk, Blank, Bind,
      ReplyLaws.LicenseRefusal, DecisionLaws.Presented, MarkedExpired;
    if VerifyLaws.Heard(w, req, now) {
      VerifyLaws.NotBlank(req);
      ReplyLaws.LicenseGateTells(w, req, now);
      var w1 := w.(challenges := Challenges.Consume(w.challenges, req.challenge.value, now));
      var g := GateLicense(w1.data, w1.issued, req, now);
      if g.code == LicenseExpired {
        ExpiredOne(w, req, now);
      }
    }
  }

  /** The licence found expired is the one presented, and the only one with its identifier. */
  lemma ExpiredOne(w: World, req: Request, now: Time)
    requires Valid(w)
    requires var g := GateLicense(w.data, w.issued, req, now); g.Stop? && g.code == LicenseExpired
    ensures var g := GateLicense(w.data, w.issued, req, now);
            && g.license < |w.data.licenses| && DecisionLaws.Presented(w, req) == Some(w.data.licenses[g.license])
            && MarkedExpired(w.data.licenses, AfterStop(w, g, now).data.licenses, w.data.licenses[g.license].id)
  {
  }

  lemma HeardTells(w: World, req: Request, now: Time)
    ensures VerifyLaws.Heard(w, req, now)
            <==> !ReplyLaws.Exhausted(w, req, now) && !ReplyLaws.Incomplete(req) && ReplyLaws.ChallengeGood(w, req, now)
    ensures VerifyLaws.Heard(w, req, now) <==> DecisionLaws.Admitted(w, req, now)
  {
    DecisionLaws.AdmittedIff(w, req, now);
  }

  lemma GatesTell(w: World, req: Request, now: Time)
    requires Valid(w)
    ensures var g := GateLicense(w.data, w.issued, req, now);
            && (g.Pass? <==> ReplyLaws.LicenseRefusal(w, req, now).None?)
            && (g.Pass? ==>
                  var l, gate := w.data.licenses[g.license], VerifyLaws.GateOfDevice(w, req, g, now);
                  && DecisionLaws.Presented(w, req) == Some(l)
                  && (gate.Turned? ==> ReplyLaws.DeviceRefusal(w, req, l) == Some(gate.code))
                  && (!gate.Turned? ==> ReplyLaws.DeviceRefusal(w, req, l).None?))
  {
    hide Valid, GateLicense, GateDevice, SeeDevice, ReplyLaws.LicenseRefusal, ReplyLaws.DeviceRefusal,
      DecisionLaws.Presented;
    ReplyLaws.LicenseGateTells(w, req, now);
    var g := GateLicense(w.data, w.issued, req, now);
    if g.Pass? {
      StepInvariants.PassMeans(w.data, w.issued, req, now);
      ReplyLaws.DeviceGateTells(w, req, w.data.licenses[g.license], now);
      SeenRecorded(w, req, now);
    }
  }

  /** Everything the store keeps of a request, by the first reason to refuse it, if there is one. */
  lemma LeavesBehind(w: World, req: Request, now: Time)
    requires Valid(w)
    ensures var d, d' := w.data, Verification.Verify(w, req, now).0.data;
            var l := DecisionLaws.Presented(w, req);
            match ReplyLaws.Refusal(w, req, now)
            case None => l.Some? && Examined(d, d', req, l.value, w.nextId, now)
            case Some(IntegrityFailed) => l.Some? && Examined(d, d', req, l.value, w.nextId, now)
            case Some(LicenseExpired) =>
              l.Some? && d' == d.(licenses := d'.licenses) && MarkedExpired(d.licenses, d'.licenses, l.value.id)
            case Some(BlockedDevice) => l.Some? && TurnedFrom(d, d', req, l.value, BlockedDevice, w.nextId, now)
            case Some(DeviceMismatched) => l.Some? && TurnedFrom(d, d', req, l.value, DeviceMismatched, w.nextId, now)
            case Some(TokenDeactivated) => l.Some? && TurnedFrom(d, d', req, l.value, TokenDeactivated, w.nextId, now)
            case Some(LimitExceeded) => l.Some? && TurnedFrom(d, d', req, l.value, LimitExceeded, w.nextId, now)
            case _ => d' == d
  {
    hide Valid, Verification.Verify, VerifyLaws.Heard, GateLicense, GateDevice, SeeDevice, DecisionLaws.Presented,
      ReplyLaws.LicenseRefusal, ReplyLaws.DeviceRefusal, ReplyLaws.Exhausted, ReplyLaws.Incomplete,
      ReplyLaws.ChallengeGood, Examined, TurnedFrom, MarkedExpired, IntegrityCheck.Refused, ReportedRelease, VerifyLaws.GateOfDevice,
      DecisionLaws.Admitted;
    HeardTells(w, req, now);
    GatesTell(w, req, now);
    ReplyLaws.LaterReasons(w, req, now);
    LicenseReasons(w, req, now);
    var g := GateLicense(w.data, w.issued, req, now);
    if !VerifyLaws.Heard(w, req, now) || g.Stop? {
      StoppedTold(w, req, now);
      ReplyLaws.LicenseGateTells(w, req, now);
    } else if VerifyLaws.GateOfDevice(w, req, g, now).Turned? {
      TurnedTold(w, req, now);
      DeviceReasons(w.data, w.data.licenses[g.license], req, w.nextId, now, Verification.Verify(w, req, now).0.data,
                    VerifyLaws.GateOfDevice(w, req, g, now).code);
    } else {
      PassedExamined(w, req, now);
    }
  }

  lemma LicenseReasons(w: World, req: Request, now: Time)
    ensures var reason := ReplyLaws.LicenseRefusal(w, req, now);
            reason !in {Some(BlockedDevice), Some(DeviceMismatched), Some(TokenDeactivated), Some(LimitExceeded),
                        Some(IntegrityFailed)}
    ensures ReplyLaws.LicenseRefusal(w, req, now) == Some(LicenseExpired) ==> DecisionLaws.Presented(w, req).Some?
    ensures ReplyLaws.LicenseRefusal(w, req, now).None? ==> DecisionLaws.Presented(w, req).Some?
  {
  }

  lemma DeviceReasons(d: Data, l: License, req: Request, next: Id, now: Time, d': Data, code: Code)
    requires TurnedFrom(d, d', req, l, code, next, now)
    ensures code in {BlockedDevice, DeviceMismatched, TokenDeactivated, LimitExceeded}
  {
  }

  // ----- expired licences -----

  /** An admitted request presents a licence of its active application, active itself and past its time. */
  predicate PresentsExpired(w: World, req: Request, now: Time) {
    && DecisionLaws.Admitted(w, req, now) && ReplyLaws.AppUsable(w, req)
    && var l := DecisionLaws.Presented(w, req);
       && l.Some? && l.value.appId == w.data.apps[AppNamed(w.data.apps, req.appId)].appKey
       && l.value.status == Active && now > l.value.expiresAt
  }

  /** Such a request is refused and leaves exactly that licence expired; no other touches any licence. */
  lemma ExpiryIsMarked(w: World, req: Request, now: Time)
    requires Valid(w)
    ensures var (w', reply) := Verification.Verify(w, req, now);
            if PresentsExpired(w, req, now) then
              && reply.Denied? && reply.code == LicenseExpired
              && MarkedExpired(w.data.licenses, w'.data.licenses, DecisionLaws.Presented(w, req).value.id)
            else w'.data.licenses == w.data.licenses && !(reply.Denied? && reply.code == LicenseExpired)
  {
    hide Valid, Verification.Verify, VerifyLaws.Heard, DecisionLaws.Presented, ReplyLaws.DeviceRefusal,
      ReplyLaws.Exhausted, ReplyLaws.Incomplete, ReplyLaws.ChallengeGood, MarkedExpired, IntegrityCheck.Refused,
      ReportedRelease, DecisionLaws.Admitted, Recorded, SignsLogged, ReportFiled, OneMore, ScoreLaws.Total, DeviceStored;
    HeardTells(w, req, now);
    LeavesBehind(w, req, now);
    ReplyLaws.RepliedAs(w, req, now);
    ExpiredIff(w, req, now);
  }

  lemma ExpiredIff(w: World, req: Request, now: Time)
    ensures ReplyLaws.Refusal(w, req, now) == Some(LicenseExpired) <==> PresentsExpired(w, req, now)
  {
    hide VerifyLaws.Heard, IntegrityCheck.Refused, ReportedRelease, LicenseByKey, LicenseById, AppNamed,
      DecisionLaws.Admitted, ReplyLaws.Exhausted, ReplyLaws.Incomplete, ReplyLaws.ChallengeGood;
    HeardTells(w, req, now);
  }

  /**
   Once a request was answered "expired", its licence gets no capability decision and no grant, from any request of
   the run, until an admin resumes it: whatever its tokens still say.
   */
  lemma ExpiredFromThenOn(r: Run, m: nat, n: nat, id: Id)
    requires IsRun(r) && Valid(r.states[0]) && m < n < |r.calls|
    requires r.answers[m].Verified? && r.answers[m].reply.Denied? && r.answers[m].reply.code == LicenseExpired
    requires r.calls[m].command.Verify?
    requires var l := DecisionLaws.Presented(r.states[m], r.calls[m].command.request); l.Some? && l.value.id == id
    requires forall i | m < i < n :: StandingLaws.ResumedBy(r.calls[i].command) != Some(id)
    ensures exists l | l in r.states[m + 1].data.licenses :: l.id == id && l.status == Expired
    ensures r.answers[n].Verified? && r.answers[n].reply.Granted? ==> r.answers[n].reply.claims.licenseId != id
    ensures r.calls[n].command.CapabilityCheck? && r.calls[n].command.check.token.Some?
            && r.calls[n].command.check.token.value.licenseId == id ==>
              r.answers[n].Decided? && r.answers[n].status != Steps.Ok
  {
    hide Step, Valid, StandingLaws.ResumedBy, PresentsExpired, DecisionLaws.Presented, Verification.Verify;
    assert Stepped(r, m);
    StepInvariants.RunKeeps(r, m, m);
    var w, req := r.states[m], r.calls[m].command.request;
    ActivationLaws.StepAnswers(w, r.calls[m]);
    ExpiryIsMarked(w, req, r.calls[m].now);
    var k := PresentedAt(w, req);
    var l := r.states[m + 1].data.licenses[k];
    assert l in r.states[m + 1].data.licenses && l.id == id && l.status == Expired;
    StandingLaws.InertUntilResumed(r, m + 1, n, k);
  }

  lemma PresentedAt(w: World, req: Request) returns (k: nat)
    requires DecisionLaws.Presented(w, req).Some?
    ensures k < |w.data.licenses| && w.data.licenses[k] == DecisionLaws.Presented(w, req).value
  {
    k := if req.licenseKey != "" then LicenseByKey(w.data.licenses, req.licenseKey)
         else LicenseById(w.data.licenses, req.token.value.licenseId);
  }

  // ----- the limiter and the challenges -----

  /** The record of every caller but this one stays. */
  ghost predicate OthersKept(t: RateLimit.Table, t': RateLimit.Table, k: RateLimit.Key) {
    forall x: RateLimit.Key | x != k :: (x in t' <==> x in t) && (x in t ==> t'[x] == t[x])
  }

  /** A failure counted: one more in an open window, the first of a new one otherwise; nothing with the limiter off. */
  ghost predicate Counted(l: RateLimit.Limits, t: RateLimit.Table, t': RateLimit.Table, k: RateLimit.Key, now: Time) {
    && OthersKept(t, t', k)
    && if l.failures <= 0 || l.window <= 0 then t' == t
       else if k in t && now < t[k].start + l.window then
         k in t' && t'[k] == RateLimit.Window(t[k].start, t[k].failures + 1)
       else k in t' && t'[k] == RateLimit.Window(now, 1)
  }

  lemma RecordCounts(l: RateLimit.Limits, t: RateLimit.Table, k: RateLimit.Key, now: Time)
    ensures Counted(l, t, RateLimit.Record(l, t, k, now), k, now)
    ensures k !in RateLimit.Reset(t, k) && OthersKept(t, RateLimit.Reset(t, k), k)
  {
  }

  /** The challenge named is used up and what has expired is swept; every other challenge stays. */
  ghost predicate UsedUp(t: Challenges.Table, t': Challenges.Table, id: Id, now: Time) {
    forall x: Id :: (x in t' <==> x in t && x != id && now <= t[x].expiresAt) && (x in t' ==> t'[x] == t[x])
  }

  lemma ConsumeUses(t: Challenges.Table, id: Id, now: Time)
    ensures UsedUp(t, Challenges.Consume(t, id, now), id, now)
  {
  }

  /** A limited request leaves no trace; a granted one clears its caller's record; any other counts against it. */
  lemma LimiterTold(w: World, req: Request, now: Time)
    requires Valid(w)
    ensures var (w', reply) := Verification.Verify(w, req, now);
            var k := RateKey(req);
            && w'.limits == w.limits
            && (reply == Failed(RateLimited) ==> w' == w)
            && (reply.Granted? ==> k !in w'.rates && OthersKept(w.rates, w'.rates, k))
            && (!reply.Granted? && reply != Failed(RateLimited) ==> Counted(w.limits, w.rates, w'.rates, k, now))
            && (reply.Failed? ==> w'.challenges == w.challenges)
            && (!reply.Failed? ==> req.challenge.Some? && UsedUp(w.challenges, w'.challenges, req.challenge.value, now))
  {
    hide Valid, VerifyLaws.Heard, VerifyLaws.PassesGates, RateLimit.Record, RateLimit.Reset, Challenges.Consume, Bind,
      GateLicense, AfterStop, ChallengeAccepted, UsedUp, Counted, OthersKept;
    RecordCounts(w.limits, w.rates, RateKey(req), now);
    if req.challenge.Some? {
      ConsumeUses(w.challenges, req.challenge.value, now);
    }
    VerifyLaws.VerifyEffect(w, req, now);
    ReplyLaws.RepliedAs(w, req, now);
  }
}
