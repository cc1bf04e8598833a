/** Runs from an empty server that show, call by call, where the code departs from what is expected of it. */
module Witnesses {
  import opened Types
  import opened Lookup
  import opened World
  import opened Invariants
  import opened Machine
  import BlockingLaws
  import Challenges
  import DecisionLaws
  import Diagnostics
  import FilingLaws
  import Frames
  import IntegrityCheck
  import Policies
  import RateLimit
  import Releases
  import StepInvariants
  import Steps
  import Text
  import Tokens
  import Verification
  import VerifyLaws

  const LIMITS := RateLimit.Limits(5, MINUTE)

  function Boot(): World {
    Bootstrap(SECOND, LIMITS)
  }

  /** One call a second, the first a second after the start. */
  function At(k: nat): Time {
    (k + 2) * 1_000_000_000
  }

  function Timed(cs: seq<Command>): seq<Call> {
    seq(|cs|, i requires 0 <= i < |cs| => Call(cs[i], "admin", At(i)))
  }

  function RunOf(cs: seq<Command>): Run {
    Execute(Boot(), Timed(cs))
  }

  lemma RunOfIsRun(cs: seq<Command>)
    ensures var r := RunOf(cs);
            && IsRun(r) && |r.calls| == |cs| == |r.answers| && |r.states| == |cs| + 1 && r.states[0] == Boot()
            && Valid(Boot())
  {
    hide Step;
    ExecuteIsRun(Boot(), Timed(cs));
    BootstrapValid(SECOND, LIMITS);
  }

  /** Its calls, one by one. */
  lemma RunOfStep(cs: seq<Command>, k: nat)
    requires k < |cs|
    ensures var r := RunOf(cs);
            && |r.calls| == |cs| == |r.answers| && |r.states| == |cs| + 1
            && r.calls[k] == Call(cs[k], "admin", At(k))
            && (r.states[k + 1], r.answers[k]) == Step(r.states[k], Call(cs[k], "admin", At(k)))
  {
    hide Step;
    RunOfIsRun(cs);
    assert Stepped(RunOf(cs), k);
  }

  // ----- one application, one licence for one device, and its devices coming and going -----

  const APP := App("app-0", "app", AppActive)

  function Sold(): License {
    License(3, Sha256("key"), "app", 1, ["pro"], At(1) + 365 * DAY, Active, At(1))
  }

  const NO_EVIDENCE := Integrity("", "", "", "", None, "", "", "", "", "", [], "", [], false, [], [])

  function Request(appId: string, key: string, token: Option<Claims>, challenge: Id, fingerprint: string):
    Verification.Request
  {
    Verification.Request(RateLimit.Activating, "c", appId, "windows", key, token, Some(challenge), "n", "i", fingerprint,
                         "", "", NO_EVIDENCE)
  }

  /** The token an unsuspicious client is given. */
  function TokenFor(device: Id, now: Time): Claims {
    Tokens.IssueClaims(Tokens.DefaultSettings(SECOND), Low, "app", 3, device, ["pro"], now, now, now)
  }

  function Pending(now: Time): Challenge {
    Challenge("n", "app", "i", now + Challenges.LIFETIME, now)
  }

  /** Identifiers and fingerprints, and the status of each device's activation. */
  type Devices = seq<(Id, string)>
  type Statuses = seq<ActivationStatus>

  /** What matters of a state: the devices' identifiers and fingerprints, and the status of each one's activation. */
  ghost predicate Looks(w: World, devices: Devices, statuses: Statuses, challenges: Challenges.Table,
                        next: Id)
  {
    && w.data.apps == [APP] && w.data.licenses == [Sold()] && w.data.settings == Tokens.DefaultSettings(SECOND)
    && w.challenges == challenges && w.rates == map[] && w.limits == LIMITS && w.nextId == next
    && |w.data.devices| == |devices| == |w.data.activations| == |statuses|
    && (forall i | 0 <= i < |devices| ::
          && w.data.devices[i].id == devices[i].0 && w.data.devices[i].fingerprint == Sha256(devices[i].1)
          && w.data.devices[i].status == DeviceActive)
    && (forall i | 0 <= i < |devices| ::
          && w.data.activations[i].licenseId == 3 && w.data.activations[i].deviceId == devices[i].0
          && w.data.activations[i].status == statuses[i])
  }

  lemma NothingNoticed(release: Option<Release>, k: nat)
    requires release.None?
    ensures IntegrityCheck.RaisedBy(release, NO_EVIDENCE, k) == []
  {
    hide IntegrityCheck.CheckAt, IntegrityCheck.SignalFor;
    IntegrityCheck.RaisedStep(release, NO_EVIDENCE, k);
    if k > 0 {
      NothingNoticed(release, k - 1);
      NothingShown(IntegrityCheck.CheckAt(k - 1));
    }
  }

  lemma NothingShown(e: EventType)
    ensures !IntegrityCheck.Shows(None, NO_EVIDENCE, e)
  {
    BlankStatus();
    hide IntegrityCheck.BusinessStatusFailed, IntegrityCheck.DbStatusFailed, IntegrityCheck.ReleaseShows;
  }

  lemma BlankStatus()
    ensures !IntegrityCheck.BusinessStatusFailed("") && !IntegrityCheck.DbStatusFailed("")
  {
    assert Text.TrimSpace("") == "" && Text.ToLower("") == "";
  }

  /** A client without evidence against it is given the plain token. */
  lemma Unsuspicious(d: Data, appId: string, platform: string)
    ensures Verification.SignalsOn(d, appId, platform, NO_EVIDENCE) == []
    ensures IntegrityCheck.Assess([]) == IntegrityCheck.RiskResult(Low, 10, [IntegrityCheck.Allow])
    ensures !IntegrityCheck.Denies([])
  {
    NothingNoticed(None, IntegrityCheck.CHECKS);
    IntegrityCheck.CleanReport(None, NO_EVIDENCE);
  }

  lemma ChallengeStep(w: World, devices: Devices, statuses: Statuses, next: Id, now: Time)
    requires Looks(w, devices, statuses, map[], next)
    ensures var (w', s) := Steps.IssueChallenge(w, Steps.ChallengeRequest("c", "app", "i", "n"), now);
            s == Steps.Ok && Looks(w', devices, statuses, map[next := Pending(now)], next + 1)
            && w'.issued == w.issued
  {
    assert AppNamed(w.data.apps, "app") == 0;
    assert Challenges.Sweep(map[], now) == map[];
  }

  /** The request is heard: its challenge is pending and nothing is counted against it. */
  lemma RequestHeard(w: World, devices: Devices, statuses: Statuses, c: Id, next: Id, issued: Time,
                     req: Verification.Request, now: Time)
    requires Looks(w, devices, statuses, map[c := Pending(issued)], next)
    requires issued <= now <= issued + Challenges.LIFETIME
    requires req.appId == "app" && req.challenge == Some(c) && req.nonce == "n" && req.installId == "i"
    requires req.fingerprint != ""
    ensures VerifyLaws.Heard(w, req, now)
  {
  }

  lemma KeyPasses(w: World, devices: Devices, statuses: Statuses, t: Challenges.Table, next: Id,
                  req: Verification.Request, now: Time)
    requires Looks(w, devices, statuses, t, next) && now <= At(1) + 365 * DAY
    requires req.appId == "app" && req.licenseKey == "key"
    ensures Verification.GateLicense(w.data, w.issued, req, now) == Verification.Pass(0, 0, None)
  {
    assert AppNamed(w.data.apps, "app") == 0;
    assert LicenseByKey(w.data.licenses, "key") == 0;
  }

  /** A device the licence has not seen, while no other is active. */
  lemma ActivateNew(w: World, devices: Devices, statuses: Statuses, c: Id, next: Id, issued: Time,
                    fingerprint: string, now: Time)
    requires Looks(w, devices, statuses, map[c := Pending(issued)], next)
    requires issued <= now <= issued + Challenges.LIFETIME
    requires now <= At(1) + 365 * DAY && fingerprint != ""
    requires forall i | 0 <= i < |devices| :: devices[i].1 != fingerprint && devices[i].0 < next
    requires forall i | 0 <= i < |statuses| :: statuses[i] != ActivationActive
    ensures var (w', reply) := Verification.Verify(w, Request("app", "key", None, c, fingerprint), now);
            && reply.Granted? && w'.issued == w.issued + {TokenFor(next, now)}
            && Looks(w', devices + [(next, fingerprint)], statuses + [ActivationActive], map[], next + 3)
  {
    hide Verification.Verify, Verification.SignalsOn, IntegrityCheck.Assess, IntegrityCheck.Denies, VerifyLaws.Heard,
      Tokens.IssueClaims, Policies.BundleFor;
    var req := Request("app", "key", None, c, fingerprint);
    RequestHeard(w, devices, statuses, c, next, issued, req, now);
    KeyPasses(w, devices, statuses, map[c := Pending(issued)], next, req, now);
    assert DeviceByFingerprint(w.data.devices, Sha256(fingerprint)) == |devices|;
    assert ActivationFor(w.data.activations, 3, next) == |devices|;
    assert ActiveDevices(w.data.activations, 3) == {};
    VerifyLaws.VerifyEffect(w, req, now);
    VerifyLaws.VerifyLeaves(w, req, now);
    Unsuspicious(w.data, "app", "windows");
    AfterUse(c, issued, now);
  }

  lemma AfterUse(c: Id, issued: Time, now: Time)
    ensures Challenges.Consume(map[c := Pending(issued)], c, now) == map[]
    ensures forall k :: RateLimit.Reset(map[], k) == map[]
  {
  }

  /** A device the licence has seen, whatever the others do. */
  lemma ActivateKnown(w: World, devices: Devices, statuses: Statuses, c: Id, next: Id, issued: Time,
                      k: nat, now: Time)
    requires Looks(w, devices, statuses, map[c := Pending(issued)], next)
    requires issued <= now <= issued + Challenges.LIFETIME
    requires now <= At(1) + 365 * DAY && k < |devices| && devices[k].1 != ""
    requires forall i, j | 0 <= i < j < |devices| :: devices[i].1 != devices[j].1 && devices[i].0 != devices[j].0
    ensures var (w', reply) := Verification.Verify(w, Request("app", "key", None, c, devices[k].1), now);
            reply.Granted? && Looks(w', devices, statuses[k := ActivationActive], map[], next + 1)
  {
    hide Verification.Verify, Verification.SignalsOn, IntegrityCheck.Assess, IntegrityCheck.Denies, VerifyLaws.Heard,
      Tokens.IssueClaims, Policies.BundleFor;
    var req := Request("app", "key", None, c, devices[k].1);
    RequestHeard(w, devices, statuses, c, next, issued, req, now);
    KeyPasses(w, devices, statuses, map[c := Pending(issued)], next, req, now);
    assert DeviceByFingerprint(w.data.devices, Sha256(devices[k].1)) == k;
    assert ActivationFor(w.data.activations, 3, devices[k].0) == k;
    VerifyLaws.VerifyEffect(w, req, now);
    VerifyLaws.VerifyLeaves(w, req, now);
    Unsuspicious(w.data, "app", "windows");
    AfterUse(c, issued, now);
  }

  /** Its own token takes a device out of use. */
  lemma DeactivateStep(w: World, devices: Devices, statuses: Statuses, next: Id, k: nat, token: Claims,
                       now: Time)
    requires Looks(w, devices, statuses, map[], next) && k < |devices|
    requires forall i, j | 0 <= i < j < |devices| :: devices[i].0 != devices[j].0
    requires token in w.issued && token.licenseId == 3 && token.deviceId == devices[k].0 && Unix(now) <= token.expiresAt
    requires statuses[k] != Deactivated
    ensures var (w', s) := Steps.Deactivate(w, Steps.DeactivateRequest("", token, ""), now);
            s == Steps.Ok && Looks(w', devices, statuses[k := Deactivated], map[], next)
  {
    assert ActivationFor(w.data.activations, 3, devices[k].0) == k;
    assert DeviceById(w.data.devices, devices[k].0) == k;
  }

  // ----- selling the licence -----

  lemma OpenShop()
    ensures var w1 := Step(Boot(), Call(CreateApp("app-0", "app", "App", "", ""), "admin", At(0))).0;
            var (w2, a) := Step(w1, Call(CreateLicense(Steps.LicenseRequest("app", 1, Steps.NotGiven, ["pro"]), "key"),
                                         "admin", At(1)));
            a == Done(Steps.Ok) && Looks(w2, [], [], map[], 5)
  {
    var w1 := Step(Boot(), Call(CreateApp("app-0", "app", "App", "", ""), "admin", At(0))).0;
    AppOpened();
    assert AppNamed([APP], "app") == 0;
    Tokens.NormalizeIsProjection(Tokens.DefaultSettings(SECOND), At(1));
  }

  lemma AppOpened()
    ensures var w := Step(Boot(), Call(CreateApp("app-0", "app", "App", "", ""), "admin", At(0))).0;
            && w.data.apps == [APP] && w.data.licenses == [] && w.data.devices == [] && w.data.activations == []
            && w.data.settings == Tokens.DefaultSettings(SECOND) && w.challenges == map[] && w.rates == map[]
            && w.limits == LIMITS && w.nextId == 3 && w.data.policies == []
            && |w.data.sdkKeys| == 1 && w.data.sdkKeys[0].appId == "app" && w.data.sdkKeys[0].status == KeyActive
            && w.data.releases == [Steps.FirstRelease(0, "app", "", "", At(0))]
  {
    hide Steps.SeedPolicies, Steps.IsVisionFlow, Steps.FirstRelease;
    assert AppNamed([], "app") == 0;
    PlainApp();
  }

  lemma PlainApp()
    ensures !Steps.IsVisionFlow("app")
  {
    hide Text.TrimLeft, Text.TrimRight;
    assert |Text.TrimLeft("app")| <= 3 && |Text.TrimRight(Text.TrimLeft("app"))| <= 3;
    assert |Text.ToLower(Text.TrimSpace("app"))| <= 3;
  }

  /**
   Create an application and a licence for one device; activate a first device, deactivate it, activate a second;
   then activate the first again.
   */
  function Comings(): seq<Command> {
    var challenge := IssueChallenge(Steps.ChallengeRequest("c", "app", "i", "n"));
    [ CreateApp("app-0", "app", "App", "", ""),
      CreateLicense(Steps.LicenseRequest("app", 1, Steps.NotGiven, ["pro"]), "key"),
      challenge,
      Verify(Request("app", "key", None, 5, "first")),
      Deactivate(Steps.DeactivateRequest("", TokenFor(6, At(3)), "")),
      challenge,
      Verify(Request("app", "key", None, 9, "second")),
      challenge,
      Verify(Request("app", "key", None, 13, "first")) ]
  }

  /** The list begins by creating the application and the licence. */
  predicate OpensShop(cs: seq<Command>) {
    && |cs| >= 2
    && cs[0] == CreateApp("app-0", "app", "App", "", "")
    && cs[1] == CreateLicense(Steps.LicenseRequest("app", 1, Steps.NotGiven, ["pro"]), "key")
  }

  /** Then the first device is activated. */
  predicate ServesFirst(cs: seq<Command>) {
    && OpensShop(cs) && |cs| >= 4
    && cs[2] == IssueChallenge(Steps.ChallengeRequest("c", "app", "i", "n"))
    && cs[3] == Verify(Request("app", "key", None, 5, "first"))
  }

  lemma ComingsAre()
    ensures var cs := Comings();
            && |cs| == 9 && ServesFirst(cs)
            && cs[2] == cs[5] == cs[7] == IssueChallenge(Steps.ChallengeRequest("c", "app", "i", "n"))
            && cs[4] == Deactivate(Steps.DeactivateRequest("", TokenFor(6, At(3)), ""))
            && cs[6] == Verify(Request("app", "key", None, 9, "second"))
            && cs[8] == Verify(Request("app", "key", None, 13, "first"))
  {
  }

  /** A challenge and a first activation. */
  lemma FirstVisit(w2: World, w3: World, w4: World)
    requires Looks(w2, [], [], map[], 5) && w2.issued == {}
    requires w3 == Steps.IssueChallenge(w2, Steps.ChallengeRequest("c", "app", "i", "n"), At(2)).0
    requires w4 == Verification.Verify(w3, Request("app", "key", None, 5, "first"), At(3)).0
    ensures Looks(w4, [(6, "first")], [ActivationActive], map[], 9) && w4.issued == {TokenFor(6, At(3))}
  {
    hide Looks, TokenFor, Request, Steps.IssueChallenge, Verification.Verify;
    ChallengeStep(w2, [], [], 5, At(2));
    ActivateNew(w3, [], [], 5, 6, At(2), "first", At(3));
    assert [] + [(6, "first")] == [(6, "first")] && [] + [ActivationActive] == [ActivationActive];
  }

  lemma FirstActivated(cs: seq<Command>)
    requires ServesFirst(cs)
    ensures var r := RunOf(cs);
            && |r.states| == |cs| + 1
            && Looks(r.states[4], [(6, "first")], [ActivationActive], map[], 9)
            && r.states[4].issued == {TokenFor(6, At(3))}
  {
    hide At, Step, Looks, TokenFor, RunOf, IsRun, Request, Steps.IssueChallenge, Verification.Verify;
    var r := RunOf(cs);
    ShopOpened(cs);
    RunOfChallenge(cs, 2);
    RunOfVerify(cs, 3, Request("app", "key", None, 5, "first"));
    FirstVisit(r.states[2], r.states[3], r.states[4]);
  }

  lemma ShopOpened(cs: seq<Command>)
    requires OpensShop(cs)
    ensures var r := RunOf(cs);
            && |r.states| == |cs| + 1 && Looks(r.states[2], [], [], map[], 5) && r.states[2].issued == {}
            && r.states[2].data.releases == [Steps.FirstRelease(0, "app", "", "", At(0))]
  {
    hide At, Step, Looks, RunOf, IsRun, Frames.NoneSwitchedOn, Steps.FirstRelease;
    var r := RunOf(cs);
    RunOfIsRun(cs);
    RunOfStep(cs, 0);
    RunOfStep(cs, 1);
    OpenShop();
    AppOpened();
    Frames.StepFrame(r.states[1], Call(cs[1], "admin", At(1)));
    Frames.OthersSwitchNothingOn(r.states[0], Call(cs[0], "admin", At(0)));
    Frames.OthersSwitchNothingOn(r.states[1], Call(cs[1], "admin", At(1)));
  }

  /** The calls of a run that matter here, as their steps. */
  lemma RunOfChallenge(cs: seq<Command>, k: nat)
    requires k < |cs| && cs[k] == IssueChallenge(Steps.ChallengeRequest("c", "app", "i", "n"))
    ensures var r := RunOf(cs);
            && |r.states| == |cs| + 1
            && r.states[k + 1]
               == Steps.IssueChallenge(r.states[k], Steps.ChallengeRequest("c", "app", "i", "n"), At(k)).0
  {
    hide RunOf, IsRun, Steps.IssueChallenge;
    RunOfStep(cs, k);
  }

  lemma RunOfVerify(cs: seq<Command>, k: nat, req: Verification.Request)
    requires k < |cs| && cs[k] == Verify(req)
    ensures var r := RunOf(cs);
            && |r.states| == |cs| + 1 && |r.answers| == |cs|
            && var (w', reply) := Verification.Verify(r.states[k], req, At(k));
               r.states[k + 1] == w' && r.answers[k] == Verified(reply)
  {
    hide RunOf, IsRun, Verification.Verify;
    RunOfStep(cs, k);
  }

  lemma RunOfDeactivate(cs: seq<Command>, k: nat, req: Steps.DeactivateRequest)
    requires k < |cs| && cs[k] == Deactivate(req)
    ensures var r := RunOf(cs);
            && |r.states| == |cs| + 1
            && r.states[k + 1] == Steps.Deactivate(r.states[k], req, At(k)).0
  {
    hide RunOf, IsRun, Steps.Deactivate;
    RunOfStep(cs, k);
  }

  lemma TokenLasts(device: Id, now: Time, later: Time)
    requires now <= later <= now + 5 * MINUTE - SECOND && now >= 0
    ensures Unix(later) <= TokenFor(device, now).expiresAt
    ensures TokenFor(device, now).licenseId == 3 && TokenFor(device, now).deviceId == device
  {
    Tokens.LifetimeBounds(Tokens.DefaultSettings(SECOND), Low, "app", 3, device, ["pro"], now, now, now);
  }

  /** The first device leaves, a second comes. */
  lemma SecondVisit(w4: World, w5: World, w6: World, w7: World)
    requires Looks(w4, [(6, "first")], [ActivationActive], map[], 9) && TokenFor(6, At(3)) in w4.issued
    requires w5 == Steps.Deactivate(w4, Steps.DeactivateRequest("", TokenFor(6, At(3)), ""), At(4)).0
    requires w6 == Steps.IssueChallenge(w5, Steps.ChallengeRequest("c", "app", "i", "n"), At(5)).0
    requires w7 == Verification.Verify(w6, Request("app", "key", None, 9, "second"), At(6)).0
    ensures Looks(w7, [(6, "first"), (10, "second")], [Deactivated, ActivationActive], map[], 13)
  {
    hide Looks, TokenFor, Request, Steps.IssueChallenge, Verification.Verify, Steps.Deactivate;
    TokenLasts(6, At(3), At(4));
    DeactivateStep(w4, [(6, "first")], [ActivationActive], 9, 0, TokenFor(6, At(3)), At(4));
    assert [ActivationActive][0 := Deactivated] == [Deactivated];
    ChallengeStep(w5, [(6, "first")], [Deactivated], 9, At(5));
    ActivateNew(w6, [(6, "first")], [Deactivated], 9, 10, At(5), "second", At(6));
    assert [(6, "first")] + [(10, "second")] == [(6, "first"), (10, "second")];
    assert [Deactivated] + [ActivationActive] == [Deactivated, ActivationActive];
  }

  lemma SecondActivated()
    ensures var r := RunOf(Comings());
            && |r.states| == 10
            && Looks(r.states[7], [(6, "first"), (10, "second")], [Deactivated, ActivationActive], map[], 13)
  {
    hide At, Step, Looks, TokenFor, Comings, RunOf, IsRun, Request, Steps.IssueChallenge, Verification.Verify,
      Steps.Deactivate;
    var cs, r := Comings(), RunOf(Comings());
    ComingsAre();
    FirstActivated(Comings());
    RunOfDeactivate(cs, 4, Steps.DeactivateRequest("", TokenFor(6, At(3)), ""));
    RunOfChallenge(cs, 5);
    RunOfVerify(cs, 6, Request("app", "key", None, 9, "second"));
    SecondVisit(r.states[4], r.states[5], r.states[6], r.states[7]);
  }

  /** The first device comes back. */
  lemma ThirdVisit(w7: World, w8: World, w9: World)
    requires Looks(w7, [(6, "first"), (10, "second")], [Deactivated, ActivationActive], map[], 13)
    requires w8 == Steps.IssueChallenge(w7, Steps.ChallengeRequest("c", "app", "i", "n"), At(7)).0
    requires w9 == Verification.Verify(w8, Request("app", "key", None, 13, "first"), At(8)).0
    ensures w9.data.licenses == [Sold()] && |ActiveDevices(w9.data.activations, 3)| == 2
  {
    hide Request, Steps.IssueChallenge, Verification.Verify;
    var devices := [(6, "first"), (10, "second")];
    ChallengeStep(w7, devices, [Deactivated, ActivationActive], 13, At(7));
    ActivateKnown(w8, devices, [Deactivated, ActivationActive], 13, 14, At(7), 0, At(8));
    BothActive(w9.data.activations);
  }

  /**
   The unconditional device cap does not hold: this run of nine calls from an empty server leaves a licence for one
   device with two active ones.
   */
  lemma LimitCanBeExceeded()
    ensures var r := RunOf(Comings());
            && IsRun(r) && r.states[0] == Boot() && |r.states| == 10
            && r.states[9].data.licenses == [Sold()] && Sold().maxDevices == 1
            && |ActiveDevices(r.states[9].data.activations, Sold().id)| == 2
  {
    hide At, Step, Looks, Comings, RunOf, IsRun, Request, Steps.IssueChallenge, Verification.Verify, ActiveDevices;
    var cs, r := Comings(), RunOf(Comings());
    ComingsAre();
    RunOfIsRun(cs);
    SecondActivated();
    RunOfChallenge(cs, 7);
    RunOfVerify(cs, 8, Request("app", "key", None, 13, "first"));
    ThirdVisit(r.states[7], r.states[8], r.states[9]);
  }

  lemma BothActive(activations: seq<Activation>)
    requires |activations| == 2
    requires forall i | 0 <= i < 2 :: activations[i].licenseId == 3 && activations[i].status == ActivationActive
    requires activations[0].deviceId == 6 && activations[1].deviceId == 10
    ensures |ActiveDevices(activations, 3)| == 2
  {
    assert activations[0] in activations && activations[1] in activations;
    assert ActiveDevices(activations, 3) == {6, 10};
  }

  // ----- the diagnostic -----

  /** The query names the application by its ID; the client, activated a second ago, does too. */
  const BY_ID := Diagnostics.Query("app-0", Some(3), "", Some(6), "")

  function Returning(): Verification.Request {
    Request("app-0", "", Some(TokenFor(6, At(3))), 9, "first")
  }

  /** In that run, after the first activation, a mismatch is reported for a client that passes every gate. */
  lemma MismatchIsReported()
    ensures var r := RunOf(Comings());
            && IsRun(r) && r.states[0] == Boot() && |r.states| == 10
            && var w, x := r.states[4], Diagnostics.Diagnose(r.states[4].data, BY_ID, At(4));
               && x.Some? && Diagnostics.ClientOf(w, BY_ID, x.value, Returning())
               && x.value.findings == [Diagnostics.AppIsActive, Diagnostics.LicenseAppMismatch,
                                       Diagnostics.DeviceIsActive, Diagnostics.ActivationIsActive]
               && VerifyLaws.PassesGates(w, Returning(), At(4))
  {
    hide At, Step, Looks, TokenFor, Comings, RunOf, IsRun, VerifyLaws.PassesGates, Diagnostics.Diagnose,
      Diagnostics.ClientOf;
    ComingsAre();
    RunOfIsRun(Comings());
    FirstActivated(Comings());
    MismatchReported(RunOf(Comings()).states[4]);
  }

  lemma MismatchReported(w: World)
    requires Looks(w, [(6, "first")], [ActivationActive], map[], 9) && w.issued == {TokenFor(6, At(3))}
    ensures var x := Diagnostics.Diagnose(w.data, BY_ID, At(4));
            && x.Some? && Diagnostics.ClientOf(w, BY_ID, x.value, Returning())
            && x.value.findings == [Diagnostics.AppIsActive, Diagnostics.LicenseAppMismatch, Diagnostics.DeviceIsActive,
                                    Diagnostics.ActivationIsActive]
            && VerifyLaws.PassesGates(w, Returning(), At(4))
  {
    hide TokenFor, Diagnostics.LatestActivation, ActiveDevices;
    var d := w.data;
    TokenLasts(6, At(3), At(4));
    TokenNamesApp(6, At(3));
    assert AppNamed(d.apps, "app-0") == 0;
    assert LicenseById(d.licenses, 3) == 0;
    assert DeviceById(d.devices, 6) == 0;
    assert DeviceByFingerprint(d.devices, Sha256("first")) == 0;
    assert ActivationFor(d.activations, 3, 6) == 0;
  }

  lemma TokenNamesApp(device: Id, now: Time)
    ensures TokenFor(device, now).appId == "app"
  {
    hide Tokens.Normalize;
  }

  /** A second device comes while the first is active, and is turned away. */
  function Crowded(): seq<Command> {
    var challenge := IssueChallenge(Steps.ChallengeRequest("c", "app", "i", "n"));
    [ CreateApp("app-0", "app", "App", "", ""),
      CreateLicense(Steps.LicenseRequest("app", 1, Steps.NotGiven, ["pro"]), "key"),
      challenge,
      Verify(Request("app", "key", None, 5, "first")),
      challenge,
      Verify(Request("app", "key", None, 9, "second")) ]
  }

  lemma CrowdedAre()
    ensures var cs := Crowded();
            && |cs| == 6 && ServesFirst(cs)
            && cs[4] == IssueChallenge(Steps.ChallengeRequest("c", "app", "i", "n"))
            && cs[5] == Verify(Request("app", "key", None, 9, "second"))
  {
  }

  /** Only the first device has an activation; the second, turned away, is known all the same. */
  ghost predicate TwoKnown(d: Data) {
    && d.apps == [APP] && d.licenses == [Sold()] && |d.devices| == 2 && |d.activations| == 1
    && d.devices[0].id == 6 && d.devices[1].id == 10 && d.devices[1].status == DeviceActive
    && d.activations[0].licenseId == 3 && d.activations[0].deviceId == 6 && d.activations[0].status == ActivationActive
  }

  lemma TurnedAway(w: World, issued: Time, now: Time)
    requires Looks(w, [(6, "first")], [ActivationActive], map[9 := Pending(issued)], 10)
    requires issued <= now <= issued + Challenges.LIFETIME && now <= At(1) + 365 * DAY
    ensures var (w', reply) := Verification.Verify(w, Request("app", "key", None, 9, "second"), now);
            reply.Denied? && reply.code == Verification.LimitExceeded && TwoKnown(w'.data)
  {
    hide Verification.Verify, VerifyLaws.Heard, Verification.GateLicense, Verification.RefusalRisk;
    var req := Request("app", "key", None, 9, "second");
    RequestHeard(w, [(6, "first")], [ActivationActive], 9, 10, issued, req, now);
    KeyPasses(w, [(6, "first")], [ActivationActive], map[9 := Pending(issued)], 10, req, now);
    assert DeviceByFingerprint(w.data.devices, Sha256("second")) == 1;
    assert ActivationFor(w.data.activations, 3, 10) == 1;
    assert w.data.activations[0] in w.data.activations;
    assert ActiveDevices(w.data.activations, 3) == {6};
    VerifyLaws.TurnedLeaves(w, req, now);
  }

  /** The query names the licence and the device that was turned away. */
  const ABOUT_SECOND := Diagnostics.Query("app", Some(3), "", Some(10), "")

  /**
   The diagnostic of the device turned away shows the other device's activation, and so finds nothing wrong with a
   device that has none.
   */
  lemma OtherActivationReported()
    ensures var r := RunOf(Crowded());
            && IsRun(r) && r.states[0] == Boot() && |r.states| == 7
            && r.answers[5].Verified? && r.answers[5].reply.Denied?
            && var d := r.states[6].data;
               var x := Diagnostics.Diagnose(d, ABOUT_SECOND, At(6));
               && x.Some? && Diagnostics.AllFine(x.value.findings)
               && x.value.device == Some(1) && x.value.activation == Some(0)
               && d.activations[0].deviceId != d.devices[1].id
               && forall a | a in d.activations :: a.deviceId != d.devices[1].id
  {
    hide At, Step, Looks, TokenFor, RunOf, IsRun, Request, Crowded, Steps.IssueChallenge, Verification.Verify,
      Diagnostics.Diagnose, TwoKnown;
    var cs, r := Crowded(), RunOf(Crowded());
    CrowdedAre();
    RunOfIsRun(cs);
    FirstActivated(cs);
    RunOfChallenge(cs, 4);
    RunOfVerify(cs, 5, Request("app", "key", None, 9, "second"));
    SecondTurnedAway(r.states[4], r.states[5]);
    AboutSecond(r.states[6].data);
  }

  lemma SecondTurnedAway(w4: World, w5: World)
    requires Looks(w4, [(6, "first")], [ActivationActive], map[], 9)
    requires w5 == Steps.IssueChallenge(w4, Steps.ChallengeRequest("c", "app", "i", "n"), At(4)).0
    ensures var (w6, reply) := Verification.Verify(w5, Request("app", "key", None, 9, "second"), At(5));
            reply.Denied? && TwoKnown(w6.data)
  {
    hide Looks, Request, Steps.IssueChallenge, Verification.Verify, TwoKnown;
    ChallengeStep(w4, [(6, "first")], [ActivationActive], 9, At(4));
    TurnedAway(w5, At(4), At(5));
  }

  lemma AboutSecond(d: Data)
    requires TwoKnown(d)
    ensures var x := Diagnostics.Diagnose(d, ABOUT_SECOND, At(6));
            && x.Some? && Diagnostics.AllFine(x.value.findings)
            && x.value.device == Some(1) && x.value.activation == Some(0)
            && |d.activations| == 1 && |d.devices| == 2 && d.activations[0].deviceId != d.devices[1].id
            && forall a | a in d.activations :: a.deviceId != d.devices[1].id
  {
    assert AppNamed(d.apps, "app") == 0;
    assert LicenseById(d.licenses, 3) == 0;
    assert DeviceById(d.devices, 10) == 1;
    assert ActivationFor(d.activations, 3, 10) == 1;
    assert d.activations[..0] == [];
    assert Diagnostics.LatestActivation(d.activations, 3) == Some(0);
    Diagnostics.FourFindings(Diagnostics.Diagnose(d, ABOUT_SECOND, At(6)).value.findings);
  }

  // ----- a version blocked under an ID -----

  /** Version 1.0.0 for Windows, blocked. */
  function BlockedFirst(): Release {
    Steps.FirstRelease(0, "app-0", "", "", 0).(status := "blocked")
  }

  function Reporting(): Verification.Request {
    Request("app", "key", None, 7, "first").(integrity := NO_EVIDENCE.(appVersion := "1.0.0"))
  }

  /** The version is blocked under the application's ID before the first device, running it, is activated. */
  function BlockedById(): seq<Command> {
    [ CreateApp("app-0", "app", "App", "", ""),
      CreateLicense(Steps.LicenseRequest("app", 1, Steps.NotGiven, ["pro"]), "key"),
      CreateRelease("app-0", BlockedFirst(), false),
      IssueChallenge(Steps.ChallengeRequest("c", "app", "i", "n")),
      Verify(Reporting()) ]
  }

  lemma BlockedByIdAre()
    ensures var cs := BlockedById();
            && |cs| == 5 && OpensShop(cs) && cs[2] == CreateRelease("app-0", BlockedFirst(), false)
            && cs[3] == IssueChallenge(Steps.ChallengeRequest("c", "app", "i", "n")) && cs[4] == Verify(Reporting())
  {
  }

  /** The application's own first row, and the one filed under its ID. */
  function TwoRows(): seq<Release> {
    [ Steps.FirstRelease(0, "app", "", "", At(0)), BlockedFirst().(id := 5, createdAt := At(2)) ]
  }

  lemma RowAdded(w: World)
    requires Looks(w, [], [], map[], 5) && w.data.releases == [Steps.FirstRelease(0, "app", "", "", At(0))]
    ensures var (w', s) := Steps.CreateRelease(w, "app-0", BlockedFirst(), false, "admin", At(2));
            s == Steps.Ok && Looks(w', [], [], map[], 7) && w'.data.releases == TwoRows()
  {
    assert AppNamed(w.data.apps, "app-0") == 0;
  }

  lemma NotRefused(d: Data)
    requires d.releases == TwoRows()
    ensures !IntegrityCheck.Refused(Verification.ReportedRelease(d, "app", "windows", Reporting().integrity),
                                    Reporting().integrity)
  {
    BlankStatus();
    hide IntegrityCheck.BusinessStatusFailed, IntegrityCheck.DbStatusFailed;
    assert Releases.FirstBlocked(d.releases, "app", "windows", "1.0.0") == 2;
    assert Releases.FirstRow(d.releases, "app", "windows", "1.0.0") == 0;
  }

  lemma GrantedAllTheSame(w: World)
    requires Valid(w) && Looks(w, [], [], map[7 := Pending(At(3))], 8) && w.data.releases == TwoRows()
    ensures Verification.Verify(w, Reporting(), At(4)).1.Granted?
  {
    hide Verification.Verify, IntegrityCheck.Refused, Verification.ReportedRelease, TwoRows, Valid;
    var req := Reporting();
    assert AppNamed(w.data.apps, "app") == 0;
    assert LicenseByKey(w.data.licenses, "key") == 0;
    assert ActiveDevices(w.data.activations, 3) == {};
    NotRefused(w.data);
    DecisionLaws.GrantedIff(w, req, At(4));
  }

  lemma RowBlocked(w: World)
    ensures BlockingLaws.BlockedBy(w, CreateRelease("app-0", BlockedFirst(), false))
            == Some(BlockedFirst().(id := w.nextId))
    ensures BlockedFirst().platform == Reporting().platform && BlockedFirst().version == Reporting().integrity.appVersion
    ensures BlockedFirst().appId == APP.id && Reporting().appId == APP.appKey
  {
  }

  /** The version is blocked, and a challenge drawn. */
  lemma BlockedOnPaper()
    ensures var r := RunOf(BlockedById());
            && |r.states| == 6 && |r.answers| == 5 && r.answers[2] == Done(Steps.Ok) && r.states[2].data.apps == [APP]
            && Looks(r.states[4], [], [], map[7 := Pending(At(3))], 8) && r.states[4].data.releases == TwoRows()
  {
    hide At, Step, RunOf, IsRun, BlockedById, Steps.IssueChallenge, Steps.CreateRelease, TwoRows, BlockedFirst;
    var cs, r := BlockedById(), RunOf(BlockedById());
    BlockedByIdAre();
    ShopOpened(cs);
    RunOfRelease(cs, 2, "app-0", BlockedFirst());
    RowAdded(r.states[2]);
    hide Looks;
    RunOfChallenge(cs, 3);
    ChallengeStep(r.states[3], [], [], 7, At(3));
    Frames.StepFrame(r.states[3], Call(cs[3], "admin", At(3)));
    RunOfStep(cs, 3);
  }

  /** A version blocked under the application's ID is granted to a client of that application that reports it. */
  lemma BlockedByIdIsGranted()
    ensures var r := RunOf(BlockedById());
            && IsRun(r) && r.states[0] == Boot() && |r.states| == 6
            && r.answers[2] == Done(Steps.Ok) && r.states[2].data.apps == [APP]
            && BlockingLaws.BlockedBy(r.states[2], r.calls[2].command).Some?
            && var row := BlockingLaws.BlockedBy(r.states[2], r.calls[2].command).value;
               && row.platform == Reporting().platform && row.version == Reporting().integrity.appVersion
               && row.appId == APP.id && Reporting().appId == APP.appKey
               && r.calls[4].command == Verify(Reporting())
               && r.answers[4].Verified? && r.answers[4].reply.Granted?
  {
    hide At, Step, Looks, RunOf, IsRun, BlockedById, Verification.Verify, TwoRows, BlockedFirst, Reporting,
      BlockingLaws.BlockedBy;
    var cs, r := BlockedById(), RunOf(BlockedById());
    BlockedByIdAre();
    RunOfIsRun(cs);
    BlockedOnPaper();
    RunOfStep(cs, 2);
    RowBlocked(r.states[2]);
    RunOfStep(cs, 4);
    RunOfVerify(cs, 4, Reporting());
    StepInvariants.RunKeeps(r, 4, 4);
    GrantedAllTheSame(r.states[4]);
  }

  lemma RunOfRelease(cs: seq<Command>, k: nat, appId: string, r: Release)
    requires k < |cs| && cs[k] == CreateRelease(appId, r, false)
    ensures var run := RunOf(cs);
            && |run.states| == |cs| + 1 && |run.answers| == |cs|
            && var (w', s) := Steps.CreateRelease(run.states[k], appId, r, false, "admin", At(k));
               run.states[k + 1] == w' && run.answers[k] == Done(s)
  {
    hide RunOf, IsRun, Steps.CreateRelease;
    RunOfStep(cs, k);
  }

  // ----- keys and references -----

  lemma ShopCreated(cs: seq<Command>)
    requires |cs| >= 1 && cs[0] == CreateApp("app-0", "app", "App", "", "")
    ensures var r := RunOf(cs);
            && |r.states| == |cs| + 1
            && var w := r.states[1];
               && w.data.apps == [APP] && w.data.licenses == [] && w.data.policies == []
               && w.data.settings == Tokens.DefaultSettings(SECOND)
               && |w.data.sdkKeys| == 1 && w.data.sdkKeys[0].appId == "app" && w.data.sdkKeys[0].status == KeyActive
  {
    hide Step, RunOf, IsRun;
    RunOfIsRun(cs);
    RunOfStep(cs, 0);
    AppOpened();
  }

  /** Rotating the key of an application named by its ID leaves it with two active keys. */
  lemma RotationByIdLeavesTwo()
    ensures var r := RunOf([CreateApp("app-0", "app", "App", "", ""), RotateKey("app-0")]);
            && IsRun(r) && r.states[0] == Boot() && |r.states| == 3 && r.answers[1] == Done(Steps.Ok)
            && |FilingLaws.ActiveKeysOf(r.states[2].data.sdkKeys, APP)| == 2
  {
    hide RunOf, IsRun, Step, FilingLaws.ActiveKeysOf;
    var cs := [CreateApp("app-0", "app", "App", "", ""), RotateKey("app-0")];
    RunOfIsRun(cs);
    ShopCreated(cs);
    RunOfStep(cs, 1);
    KeyAdded(RunOf(cs).states[1]);
  }

  lemma KeyAdded(w: World)
    requires w.data.apps == [APP]
    requires |w.data.sdkKeys| == 1 && w.data.sdkKeys[0].appId == "app" && w.data.sdkKeys[0].status == KeyActive
    ensures var (w', a) := Step(w, Call(RotateKey("app-0"), "admin", At(1)));
            a == Done(Steps.Ok) && |FilingLaws.ActiveKeysOf(w'.data.sdkKeys, APP)| == 2
  {
    assert AppNamed(w.data.apps, "app-0") == 0;
    TwoKeys(Step(w, Call(RotateKey("app-0"), "admin", At(1))).0.data.sdkKeys);
  }

  lemma TwoKeys(keys: seq<SdkKey>)
    requires |keys| == 2 && keys[0].status == keys[1].status == KeyActive
    requires keys[0].appId == "app" && keys[1].appId == "app-0"
    ensures |FilingLaws.ActiveKeysOf(keys, APP)| == 2
  {
    assert FilingLaws.ActiveKeysOf(keys, APP) == {0, 1};
  }

  /** A licence sold for an application named by its ID refers to no application's key. */
  lemma LicenseUnderId()
    ensures var r := RunOf([CreateApp("app-0", "app", "App", "", ""),
                            CreateLicense(Steps.LicenseRequest("app-0", 1, Steps.NotGiven, ["pro"]), "key")]);
            && IsRun(r) && r.states[0] == Boot() && |r.states| == 3 && r.answers[1] == Done(Steps.Ok)
            && !FilingLaws.RefsHold(r.states[2].data)
  {
    hide RunOf, IsRun, Step, FilingLaws.RefsHold, FilingLaws.FilesById;
    var cs := [CreateApp("app-0", "app", "App", "", ""),
               CreateLicense(Steps.LicenseRequest("app-0", 1, Steps.NotGiven, ["pro"]), "key")];
    RunOfIsRun(cs);
    ShopCreated(cs);
    RunOfStep(cs, 1);
    SoldUnderId(RunOf(cs).states[1]);
    FilingLaws.ReferencesFromStart(RunOf(cs), 2, SECOND, LIMITS);
  }

  lemma SoldUnderId(w: World)
    requires w.data.apps == [APP]
    ensures var command := CreateLicense(Steps.LicenseRequest("app-0", 1, Steps.NotGiven, ["pro"]), "key");
            Step(w, Call(command, "admin", At(1))).1 == Done(Steps.Ok) && FilingLaws.FilesById(w, command)
  {
    hide Tokens.Normalize;
    assert AppNamed(w.data.apps, "app-0") == 0;
  }

  // ----- the bundle -----

  /** Registered as "cap" and asked for as " cap": allowed online, not in the bundle. */
  lemma BundleCanDisagree(licenseId: Id, deviceId: Id, issuedAt: int, expiresAt: int)
    ensures var r := RunOf([CreateApp("app-0", "app", "App", "", ""),
                            UpsertPolicies("app", [Asked()])]);
            && IsRun(r) && r.states[0] == Boot() && |r.states| == 3 && r.answers[1] == Done(Steps.Ok)
            && var ps := r.states[2].data.policies;
               var bundle := Policies.BundleFor(ps, "app", licenseId, deviceId, ["pro"], issuedAt, expiresAt);
               && Policies.OnlineDecision(ps, "app", ["pro"], " cap").allowed
               && Policies.BundleDecision(bundle, " cap") == None
               && !Policies.Agrees(bundle, Policies.OnlineDecision(ps, "app", ["pro"], " cap"), " cap")
  {
    hide RunOf, IsRun, Step;
    var cs := [CreateApp("app-0", "app", "App", "", ""),
               UpsertPolicies("app", [Asked()])];
    RunOfIsRun(cs);
    ShopCreated(cs);
    RunOfStep(cs, 1);
    var r := RunOf(cs);
    CapRegistered(r.states[1]);
    StepInvariants.RunKeeps(r, 2, 2);
    var ps := r.states[2].data.policies;
    CapDisagrees(ps, licenseId, deviceId, issuedAt, expiresAt);
  }

  lemma LettersAndSpace()
    ensures forall c: char | 'a' <= c <= 'z' :: !Text.IsSpace(c)
    ensures Text.IsSpace(' ')
  {
  }

  lemma Trims()
    ensures Text.TrimSpace(" cap") == "cap" && Text.TrimSpace("cap") == "cap" && Text.TrimSpace("pro") == "pro"
    ensures !Text.IsTrimmed(" cap") && Text.IsTrimmed("cap")
  {
    LettersAndSpace();
    hide Text.IsSpace, Text.TrimRight;
    assert " cap"[1..] == "cap";
    assert Text.TrimLeft("cap") == "cap";
    assert Text.TrimLeft(" cap") == "cap";
    assert Text.TrimSpace("cap") == Text.TrimRight("cap");
    assert Text.TrimSpace(" cap") == Text.TrimRight("cap");
  }

  lemma BlockMode()
    ensures Policies.NormalizeMode("") == "block" && Policies.NormalizeMode("block") == "block"
    ensures Text.TrimSpace("") == ""
  {
    LettersAndSpace();
    hide Text.IsSpace, Text.TrimRight, Text.TrimLeft;
    assert Text.IsTrimmed("") && Text.IsTrimmed("block");
    assert Text.ToLower("") == "" && Text.ToLower("block") == "block";
  }

  function Asked(): Policy {
    Policy("", "cap", "pro", "", "", 0, 0)
  }

  function Registered(): Policy {
    Policy("app", "cap", "pro", "block", "", At(1), At(1))
  }

  lemma CapNormalized()
    ensures Steps.NormalizeAll("app", [Asked()], At(1)) == Some([Registered()])
  {
    Trims();
    BlockMode();
    hide Text.TrimSpace, Policies.NormalizeMode;
    assert Policies.NormalizePolicy("app", Asked(), At(1)) == Some(Registered());
    hide Policies.NormalizePolicy;
    assert [Asked()][..0] == [] && [] + [Registered()] == [Registered()];
    assert Steps.NormalizeAll("app", [], At(1)) == Some([]);
  }

  lemma CapUpserted()
    ensures Policies.UpsertAll([], [Registered()]) == [Registered()]
  {
    BlockMode();
    hide Policies.NormalizeMode;
    var p := Registered();
    assert [p][..0] == [];
    assert Policies.UpsertAll([], []) == [];
    assert PolicyFor([], "app", "cap") == 0;
    assert Policies.Stored(p, At(1)) == p;
  }

  lemma CapRegistered(w: World)
    requires w.data.apps == [APP] && w.data.policies == []
    ensures var (w', a) := Step(w, Call(UpsertPolicies("app", [Asked()]), "admin", At(1)));
            a == Done(Steps.Ok) && w'.data.policies == [Registered()]
  {
    CapNormalized();
    CapUpserted();
    hide Steps.NormalizeAll, Policies.UpsertAll, Registered;
    assert AppNamed(w.data.apps, "app") == 0;
  }

  lemma CapDisagrees(ps: seq<Policy>, licenseId: Id, deviceId: Id, issuedAt: int, expiresAt: int)
    requires ps == [Registered()]
    ensures var bundle := Policies.BundleFor(ps, "app", licenseId, deviceId, ["pro"], issuedAt, expiresAt);
            && Policies.OnlineDecision(ps, "app", ["pro"], " cap").allowed
            && Policies.BundleDecision(bundle, " cap") == None
            && !Policies.Agrees(bundle, Policies.OnlineDecision(ps, "app", ["pro"], " cap"), " cap")
  {
    hide Policies.BundleFor, Policies.Agrees, Text.TrimSpace, Text.IsTrimmed, Policies.NormalizeMode;
    Trims();
    assert PolicyFor(ps, "app", "cap") == 0 && PolicyFor(ps, "app", " cap") == 1;
    Policies.BundleIsSearch(ps, "app", licenseId, deviceId, ["pro"], issuedAt, expiresAt, " cap");
    Policies.BundleAgreesOnline(ps, "app", licenseId, deviceId, ["pro"], issuedAt, expiresAt, " cap");
  }
}
