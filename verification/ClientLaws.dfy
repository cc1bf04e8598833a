/** What the other client requests are answered and what they leave behind, in plain terms. */
module ClientLaws {
  import opened Types
  import opened Lookup
  import opened World
  import opened Invariants
  import opened EffectLaws
  import Challenges
  import IntegrityCheck
  import Policies
  import RateLimit
  import ScoreLaws
  import StepInvariants
  import Steps
  import Text
  import Verification

  // ----- tokens -----

  /** Why a token is refused: not signed here, past its time, or for another application than the one named. */
  function TokenRefusal(w: World, appId: string, c: Claims, now: Time): (r: Option<Steps.Status>)
    ensures r in {None, Some(Steps.InvalidToken), Some(Steps.AppMismatch)}
  {
    if c !in w.issued || Unix(now) > c.expiresAt then Some(Steps.InvalidToken)
    else if appId != "" && appId != c.appId then Some(Steps.AppMismatch)
    else None
  }

  /** The stored device of the token was installed under another identity than the one named. */
  ghost predicate OtherInstall(w: World, c: Claims, installId: string) {
    installId != "" && exists v | v in w.data.devices :: v.id == c.deviceId && v.installHash != Sha256(installId)
  }

  /** The activation of the token's pair, edited; every other as it was. */
  ghost predicate PairEdited(a: seq<Activation>, b: seq<Activation>, c: Claims, edit: Activation -> Activation) {
    && |b| == |a|
    && forall k | 0 <= k < |a| ::
         b[k] == if a[k].licenseId == c.licenseId && a[k].deviceId == c.deviceId then edit(a[k]) else a[k]
  }

  ghost predicate DeviceEdited(a: seq<Device>, b: seq<Device>, id: Id, edit: Device -> Device) {
    && |b| == |a|
    && forall k | 0 <= k < |a| :: b[k] == if a[k].id == id then edit(a[k]) else a[k]
  }

  /** The event of a token presented under another install identity. */
  function MismatchEvent(c: Claims, now: Time): RiskEvent {
    RiskEvent(0, c.appId, Some(c.deviceId), c.licenseId, TokenDeviceMismatch, High, DenyAction, now, None)
  }

  lemma UniquePairs(w: World)
    requires Valid(w)
    ensures var a := w.data.activations;
            forall i, j | 0 <= i < j < |a| :: (a[i].licenseId, a[i].deviceId) != (a[j].licenseId, a[j].deviceId)
    ensures forall i, j | 0 <= i < j < |w.data.devices| :: w.data.devices[i].id != w.data.devices[j].id
  {
    hide Refers;
  }

  lemma InstallTells(w: World, c: Claims, installId: string)
    requires Valid(w)
    ensures Steps.WrongInstall(w.data, c, installId) <==> OtherInstall(w, c, installId)
  {
    UniquePairs(w);
    hide Valid;
  }

  lemma GateTells(w: World, appId: string, c: Claims, now: Time)
    ensures Steps.TokenGate(w, appId, c, now)
            == if TokenRefusal(w, appId, c, now).Some? then TokenRefusal(w, appId, c, now).value else Steps.Ok
  {
  }

  // ----- heartbeat -----

  const NOTHING := Integrity("", "", "", "", None, "", "", "", "", "", [], "", [], false, [], [])

  /** What a heartbeat reports: its evidence, with its version filled in, unless every field is blank. */
  function Reported(req: Steps.HeartbeatRequest): Option<Integrity> {
    if req.integrity.None? then None
    else
      var i := req.integrity.value;
      var filled := if i.appVersion != "" then i else i.(appVersion := req.appVersion);
      if filled == NOTHING then None else Some(filled)
  }

  /** The platform it is judged under: as named, else as the stored device has it, else Windows. */
  function PlatformUsed(w: World, req: Steps.HeartbeatRequest): string {
    var k := DeviceById(w.data.devices, req.token.deviceId);
    if req.platform != "" then req.platform
    else if k < |w.data.devices| && w.data.devices[k].platform != "" then w.data.devices[k].platform
    else "windows"
  }

  /** The release a heartbeat's report names, filed under its token's application. */
  function ReleaseReported(w: World, req: Steps.HeartbeatRequest, i: Integrity): Option<Release> {
    Verification.ReportedRelease(w.data, req.token.appId, PlatformUsed(w, req), i)
  }

  ghost function BeatAnswer(w: World, req: Steps.HeartbeatRequest, now: Time): Steps.Status {
    if TokenRefusal(w, req.appId, req.token, now).Some? then TokenRefusal(w, req.appId, req.token, now).value
    else if OtherInstall(w, req.token, req.installId) then Steps.DeviceMismatch
    else if Reported(req).Some?
            && IntegrityCheck.Refused(ReleaseReported(w, req, Reported(req).value), Reported(req).value)
    then Steps.IntegrityRefused
    else Steps.Ok
  }

  lemma ReportedTells(req: Steps.HeartbeatRequest)
    ensures Steps.Evidence(req) == Reported(req)
  {
  }

  lemma PlatformTells(w: World, req: Steps.HeartbeatRequest, now: Time)
    ensures var w2 := Steps.TouchDevice(Steps.TouchActivation(w, req.token, now), req.token.deviceId, now);
            Steps.PlatformOf(w2, req) == PlatformUsed(w, req)
  {
    var a, id := w.data.devices, req.token.deviceId;
    TouchedActivation(w, req.token, now);
    hide Steps.TouchActivation;
    var b := Steps.TouchDevice(Steps.TouchActivation(w, req.token, now), id, now).data.devices;
    assert |b| == |a| && forall k | 0 <= k < |a| :: b[k].id == a[k].id && b[k].platform == a[k].platform;
    assert DeviceById(b, id) == DeviceById(a, id);
  }

  lemma TouchedActivation(w: World, c: Claims, now: Time)
    ensures var w' := Steps.TouchActivation(w, c, now);
            w' == w.(data := w.data.(activations := w'.data.activations))
    ensures Valid(w) ==>
              PairEdited(w.data.activations, Steps.TouchActivation(w, c, now).data.activations, c,
                         (a: Activation) => a.(lastVerifiedAt := now))
  {
    if Valid(w) {
      UniquePairs(w);
    }
    hide Valid;
  }

  lemma TouchedDevice(w: World, id: Id, now: Time)
    requires forall i, j | 0 <= i < j < |w.data.devices| :: w.data.devices[i].id != w.data.devices[j].id
    ensures var w' := Steps.TouchDevice(w, id, now);
            && w' == w.(data := w.data.(devices := w'.data.devices))
            && DeviceEdited(w.data.devices, w'.data.devices, id, (v: Device) => v.(lastSeenAt := now))
  {
  }

  /** What every heartbeat is answered. */
  lemma HeartbeatAnswered(w: World, req: Steps.HeartbeatRequest, now: Time)
    requires Valid(w)
    ensures Steps.Heartbeat(w, req, now).1 == BeatAnswer(w, req, now)
  {
    hide Valid, Steps.TokenGate, Steps.WrongInstall, Steps.Evidence, Steps.ExamineBeat, Steps.TouchActivation,
      Steps.TouchDevice, Steps.PlatformOf, OtherInstall, TokenRefusal, Reported, PlatformUsed, IntegrityCheck.Refused,
      IntegrityCheck.Denies, IntegrityCheck.Signals, Verification.ReportedRelease;
    var c := req.token;
    GateTells(w, req.appId, c, now);
    TouchedActivation(w, c, now);
    var w1 := Steps.TouchActivation(w, c, now);
    InstallTells(w, c, req.installId);
    SameInstall(w.data, w1.data, c, req.installId);
    ReportedTells(req);
    PlatformTells(w, req, now);
    if Reported(req).Some? {
      var w2, i := Steps.TouchDevice(w1, c.deviceId, now), Reported(req).value;
      TouchKeepsReleases(w1, c.deviceId, now);
      SameReported(w.data, w2.data, c.appId, PlatformUsed(w, req), i);
      IntegrityCheck.DeniedIff(ReleaseReported(w, req, i), i);
    }
  }

  lemma SameInstall(a: Data, b: Data, c: Claims, installId: string)
    requires a.devices == b.devices
    ensures Steps.WrongInstall(a, c, installId) == Steps.WrongInstall(b, c, installId)
  {
  }

  lemma TouchKeepsReleases(w: World, id: Id, now: Time)
    ensures Steps.TouchDevice(w, id, now).data.releases == w.data.releases
  {
  }

  /** What every heartbeat leaves behind. */
  ghost predicate BeatLeaves(w: World, w': World, req: Steps.HeartbeatRequest, now: Time) {
    var d, d', c := w.data, w'.data, req.token;
    if TokenRefusal(w, req.appId, c, now).Some? then w' == w
    else
      && PairEdited(d.activations, d'.activations, c, (a: Activation) => a.(lastVerifiedAt := now))
      && if OtherInstall(w, c, req.installId) then
           && OneMore(d.riskEvents, d'.riskEvents, MismatchEvent(c, now))
           && d'.devices == d.devices && d'.reports == d.reports
         else match Reported(req)
           case None =>
             && DeviceEdited(d.devices, d'.devices, c.deviceId, (v: Device) => v.(lastSeenAt := now))
             && d'.riskEvents == d.riskEvents && d'.reports == d.reports
           case Some(i) => BeatExamined(w, d', req, i, now)
  }

  /** The report filed, its signs logged, and the device scored. */
  ghost predicate BeatExamined(w: World, d': Data, req: Steps.HeartbeatRequest, i: Integrity, now: Time) {
    var d, c, release := w.data, req.token, ReleaseReported(w, req, i);
    var total := 10 + ScoreLaws.Total(release, i);
    && DeviceEdited(d.devices, d'.devices, c.deviceId,
                    (v: Device) => v.(lastSeenAt := now, riskScore := if total > 100 then 100 else total))
    && SignsLogged(d.riskEvents, d'.riskEvents, release, i, c.appId, c.deviceId, c.licenseId, now)
    && ReportFiled(d.reports, d'.reports, release, i, c.appId, c.deviceId, PlatformUsed(w, req), now)
  }

  lemma ScoredDevice(w: World, id: Id, score: int)
    requires forall i, j | 0 <= i < j < |w.data.devices| :: w.data.devices[i].id != w.data.devices[j].id
    ensures var w' := Steps.ScoreDevice(w, id, score);
            && w' == w.(data := w.data.(devices := w'.data.devices))
            && DeviceEdited(w.data.devices, w'.data.devices, id, (v: Device) => v.(riskScore := score))
  {
  }

  lemma ExamineBeatTells(w: World, c: Claims, platform: string, i: Integrity, now: Time)
    requires forall i, j | 0 <= i < j < |w.data.devices| :: w.data.devices[i].id != w.data.devices[j].id
    ensures var d, d' := w.data, Steps.ExamineBeat(w, c, platform, i, now).data;
            var release := Verification.ReportedRelease(d, c.appId, platform, i);
            var total := 10 + ScoreLaws.Total(release, i);
            && DeviceEdited(d.devices, d'.devices, c.deviceId,
                            (v: Device) => v.(riskScore := if total > 100 then 100 else total))
            && SignsLogged(d.riskEvents, d'.riskEvents, release, i, c.appId, c.deviceId, c.licenseId, now)
            && ReportFiled(d.reports, d'.reports, release, i, c.appId, c.deviceId, platform, now)
            && d'.activations == d.activations
  {
    hide Verification.LogSignals, IntegrityCheck.Signals, Verification.ReportedRelease, IntegrityCheck.Assess, Keeps,
      SignsLogged, Steps.ScoreDevice, ScoreLaws.Total, DeviceEdited;
    var signals := Verification.SignalsOn(w.data, c.appId, platform, i);
    var release := Verification.ReportedRelease(w.data, c.appId, platform, i);
    StepInvariants.LogMeans(w, c.appId, c.deviceId, c.licenseId, signals, now);
    var w1 := Verification.LogSignals(w, c.appId, c.deviceId, c.licenseId, signals, now);
    LoggedSigns(w.data.riskEvents, w1.data.riskEvents, release, i, c.appId, c.deviceId, c.licenseId, w.nextId, now);
    ScoreLaws.ScoreTells(release, i);
    ScoredDevice(w1, c.deviceId, IntegrityCheck.Assess(signals).score);
  }

  lemma HeartbeatLeaves(w: World, req: Steps.HeartbeatRequest, now: Time)
    requires Valid(w)
    ensures BeatLeaves(w, Steps.Heartbeat(w, req, now).0, req, now)
  {
    hide Valid, Steps.TokenGate, Steps.WrongInstall, Steps.Evidence, Steps.ExamineBeat, Steps.TouchActivation,
      Steps.TouchDevice, Steps.PlatformOf, OtherInstall, TokenRefusal, Reported, PlatformUsed, IntegrityCheck.Denies,
      IntegrityCheck.Signals, Verification.ReportedRelease, PairEdited, DeviceEdited, SignsLogged, ReportFiled,
      BeatExamined;
    var c := req.token;
    GateTells(w, req.appId, c, now);
    TouchedActivation(w, c, now);
    var w1 := Steps.TouchActivation(w, c, now);
    InstallTells(w, c, req.installId);
    SameInstall(w.data, w1.data, c, req.installId);
    ReportedTells(req);
    UniquePairs(w);
    TouchedDevice(w1, c.deviceId, now);
    if Reported(req).Some? {
      BeatIsExamined(w, req, Reported(req).value, now);
    }
  }

  lemma BeatIsExamined(w: World, req: Steps.HeartbeatRequest, i: Integrity, now: Time)
    requires Valid(w)
    ensures var c := req.token;
            var w2 := Steps.TouchDevice(Steps.TouchActivation(w, c, now), c.deviceId, now);
            var d' := Steps.ExamineBeat(w2, c, Steps.PlatformOf(w2, req), i, now).data;
            BeatExamined(w, d', req, i, now) && d'.activations == w2.data.activations
  {
    hide Valid, Steps.ExamineBeat, Steps.TouchActivation, Steps.TouchDevice, Steps.PlatformOf, PlatformUsed,
      Verification.ReportedRelease, SignsLogged, ReportFiled, ScoreLaws.Total, PairEdited;
    var c := req.token;
    UniquePairs(w);
    TouchedActivation(w, c, now);
    var w1 := Steps.TouchActivation(w, c, now);
    TouchedDevice(w1, c.deviceId, now);
    var w2 := Steps.TouchDevice(w1, c.deviceId, now);
    PlatformTells(w, req, now);
    ExamineBeatTells(w2, c, PlatformUsed(w, req), i, now);
    SameReported(w.data, w2.data, c.appId, PlatformUsed(w, req), i);
  }

  // ----- capability check -----

  /** The one licence a token names. */
  function LicenseOf(w: World, c: Claims): Option<License> {
    var k := LicenseById(w.data.licenses, c.licenseId);
    if k < |w.data.licenses| then Some(w.data.licenses[k]) else None
  }

  ghost predicate PairActive(w: World, c: Claims) {
    exists a | a in w.data.activations ::
      a.licenseId == c.licenseId && a.deviceId == c.deviceId && a.status == ActivationActive
  }

  ghost function CheckAnswer(w: World, req: Steps.CapabilityRequest, now: Time): (Steps.Status, Option<Decision>) {
    if req.token.None? || Text.TrimSpace(req.capability) == "" then (Steps.InvalidRequest, None)
    else
      var c := req.token.value;
      if TokenRefusal(w, req.appId, c, now).Some? then (TokenRefusal(w, req.appId, c, now).value, None)
      else
        var l := LicenseOf(w, c);
        if l.None? || l.value.status != Active then (Steps.LicenseUnusable, None)
        else if !PairActive(w, c) then (Steps.ActivationUnusable, None)
        else
          (Steps.Ok, Some(Policies.Decide(Policies.Registered(w.data.policies, c.appId, Text.TrimSpace(req.capability)),
                                          l.value.entitlements, Text.TrimSpace(req.capability))))
  }

  /** What a refused capability is logged as: its mode, and mildly where the mode only hampers. */
  function RefusalEvent(c: Claims, d: Decision, now: Time): RiskEvent {
    RiskEvent(0, c.appId, Some(c.deviceId), c.licenseId, CapabilityDenied,
              if d.effectiveMode in {"warn", "watermark", "degrade"} then Low else Medium, ModeAction(d.effectiveMode),
              now, None)
  }

  /** The answer of every capability check, and what it leaves: an event for a refusal, nothing otherwise. */
  lemma CapabilityAnswered(w: World, req: Steps.CapabilityRequest, now: Time)
    requires Valid(w)
    ensures var (w', status, decision) := Steps.CapabilityCheck(w, req, now);
            && (status, decision) == CheckAnswer(w, req, now)
            && (if decision.Some? && !decision.value.allowed then
                  && req.token.Some?
                  && OneMore(w.data.riskEvents, w'.data.riskEvents, RefusalEvent(req.token.value, decision.value, now))
                  && w'.data == w.data.(riskEvents := w'.data.riskEvents)
                else w' == w)
  {
    hide Valid, Text.TrimSpace, Policies.Decide, Steps.TokenGate, Policies.Registered, PairActive;
    if req.token.Some? {
      var c := req.token.value;
      GateTells(w, req.appId, c, now);
      if c in w.issued {
        TokenStored(w, c);
      }
    }
  }

  lemma TokenStored(w: World, c: Claims)
    requires Valid(w) && c in w.issued
    ensures var l := LicenseById(w.data.licenses, c.licenseId);
            var a := ActivationFor(w.data.activations, c.licenseId, c.deviceId);
            && l < |w.data.licenses| && w.data.licenses[l].appId == c.appId
            && a < |w.data.activations|
            && (PairActive(w, c) <==> w.data.activations[a].status == ActivationActive)
  {
    assert Backed(c, w.data.licenses, w.data.activations);
    UniquePairs(w);
    hide Valid;
    var a := ActivationFor(w.data.activations, c.licenseId, c.deviceId);
    assert w.data.activations[a] in w.data.activations;
  }

  // ----- deactivation -----

  ghost function OffAnswer(w: World, req: Steps.DeactivateRequest, now: Time): Steps.Status {
    if TokenRefusal(w, req.appId, req.token, now).Some? then TokenRefusal(w, req.appId, req.token, now).value
    else if OtherInstall(w, req.token, req.installId) then Steps.DeviceMismatch
    else Steps.Ok
  }

  /** Deactivated now, unless it was before. */
  function TakenOff(a: Activation, now: Time): Activation {
    if a.status == Deactivated then a else a.(status := Deactivated, lastVerifiedAt := now, deactivatedAt := Some(now))
  }

  lemma SwitchedOff(w: World, c: Claims, now: Time)
    requires Valid(w)
    ensures var w' := Steps.SwitchOff(w, c, now);
            && w' == w.(data := w.data.(activations := w'.data.activations))
            && PairEdited(w.data.activations, w'.data.activations, c, (a: Activation) => TakenOff(a, now))
  {
    UniquePairs(w);
    hide Valid;
  }

  /** The answer of every deactivation, and what it leaves: its own activation off, or an event for a mismatch. */
  lemma DeactivateAnswered(w: World, req: Steps.DeactivateRequest, now: Time)
    requires Valid(w)
    ensures var (w', status) := Steps.Deactivate(w, req, now);
            var d, d', c := w.data, w'.data, req.token;
            && status == OffAnswer(w, req, now)
            && match status
               case Ok =>
                 && PairEdited(d.activations, d'.activations, c, (a: Activation) => TakenOff(a, now))
                 && DeviceEdited(d.devices, d'.devices, c.deviceId, (v: Device) => v.(lastSeenAt := now))
                 && d' == d.(activations := d'.activations, devices := d'.devices)
               case DeviceMismatch =>
                 OneMore(d.riskEvents, d'.riskEvents, MismatchEvent(c, now)) && d' == d.(riskEvents := d'.riskEvents)
               case _ => w' == w
  {
    hide Valid, Steps.TokenGate, Steps.WrongInstall, Steps.SwitchOff, Steps.TouchDevice, TokenRefusal, OtherInstall,
      PairEdited, DeviceEdited;
    var c := req.token;
    GateTells(w, req.appId, c, now);
    InstallTells(w, c, req.installId);
    UniquePairs(w);
    SwitchedOff(w, c, now);
    TouchedDevice(Steps.SwitchOff(w, c, now), c.deviceId, now);
  }

  // ----- challenge -----

  /** The caller has used up its failed challenge requests. */
  predicate ChallengesExhausted(w: World, req: Steps.ChallengeRequest, now: Time) {
    var k := RateLimit.Key(RateLimit.Challenging, req.caller);
    && w.limits.failures > 0 && w.limits.window > 0
    && k in w.rates && now < w.rates[k].start + w.limits.window && w.rates[k].failures >= w.limits.failures
  }

  function ChallengeAnswer(w: World, req: Steps.ChallengeRequest, now: Time): Steps.Status {
    if ChallengesExhausted(w, req, now) then Steps.RateLimited
    else if req.appId == "" || req.installId == "" then Steps.InvalidRequest
    else if AppNamed(w.data.apps, req.appId) == |w.data.apps| then Steps.AppNotFound
    else Steps.Ok
  }

  /** What is pending afterwards: what was and has not expired, and the challenge drawn. */
  ghost predicate Pending(t: Challenges.Table, t': Challenges.Table, id: Id, drawn: Option<Challenge>, now: Time) {
    forall x: Id ::
      if drawn.Some? && x == id then x in t' && t'[x] == drawn.value
      else (x in t' <==> x in t && now <= t[x].expiresAt) && (x in t' ==> t'[x] == t[x])
  }

  /** The answer of every challenge request, what it draws, and how it counts. */
  lemma ChallengeAnswered(w: World, req: Steps.ChallengeRequest, now: Time)
    ensures var (w', status) := Steps.IssueChallenge(w, req, now);
            var k := RateLimit.Key(RateLimit.Challenging, req.caller);
            && status == ChallengeAnswer(w, req, now)
            && w'.data == w.data && w'.issued == w.issued && w'.limits == w.limits
            && match status
               case Ok =>
                 && Pending(w.challenges, w'.challenges, w.nextId,
                            Some(Challenge(req.nonce, req.appId, req.installId, now + 5 * MINUTE, now)), now)
                 && k !in w'.rates && OthersKept(w.rates, w'.rates, k) && w'.nextId > w.nextId
               case AppNotFound =>
                 Pending(w.challenges, w'.challenges, w.nextId, None, now) && Counted(w.limits, w.rates, w'.rates, k, now)
               case InvalidRequest => w'.challenges == w.challenges && Counted(w.limits, w.rates, w'.rates, k, now)
               case _ => w' == w
  {
    hide RateLimit.Record, RateLimit.Reset, Counted, OthersKept, AppNamed;
    RecordCounts(w.limits, w.rates, Steps.ChallengeKey(req), now);
  }
}
