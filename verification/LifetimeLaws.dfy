/** Over whole runs: how long a granted token lasts, online and off, told from the settings stored. */
module LifetimeLaws {
  import opened Types
  import opened World
  import opened Invariants
  import opened Machine
  import ActivationLaws
  import GrantLaws
  import IntegrityCheck
  import OfflineSdk
  import ScoreLaws
  import StepInvariants
  import Tokens
  import Verification
  import VerifyLaws

  lemma WholeMinutes(now: Time, minutes: int)
    ensures Unix(now + minutes * MINUTE) == Unix(now) + 60 * minutes
  {
    assert now + minutes * MINUTE == now + (60 * minutes) * SECOND;
  }

  lemma WholeDays(now: Time, days: int)
    ensures Unix(now + days * DAY) == Unix(now) + 86_400 * days
  {
    assert now + days * DAY == now + (86_400 * days) * SECOND;
  }

  /** The times signed into the claims of a grant are those of the settings stored, read at that instant. */
  ghost predicate LastsAsSet(c: Claims, level: Severity, s: Settings, now: Time) {
    && c.issuedAt == Unix(now)
    && c.graceUntil == c.issuedAt + 86_400 * s.offlineGraceDays
    && c.expiresAt == c.issuedAt + 60 * (if level == Low then s.tokenTtlMinutes else s.mediumRiskTtlMinutes)
  }

  lemma IssuedLast(stored: Settings, level: Severity, c: Claims, now: Time)
    requires c == Tokens.IssueClaims(stored, level, c.appId, c.licenseId, c.deviceId, c.entitlements, now, now, now)
    ensures LastsAsSet(c, level, Tokens.Normalize(stored, now), now)
  {
    hide Tokens.Normalize;
    var s := Tokens.Normalize(stored, now);
    WholeMinutes(now, s.tokenTtlMinutes);
    WholeMinutes(now, s.mediumRiskTtlMinutes);
    WholeDays(now, s.offlineGraceDays);
  }

  /** Every grant of every run. */
  lemma GrantLifetimes(r: Run, i: nat)
    requires IsRun(r) && i < |r.calls| && r.answers[i].Verified? && r.answers[i].reply.Granted?
    ensures LastsAsSet(r.answers[i].reply.claims, r.answers[i].reply.risk.level,
                       Tokens.Normalize(r.states[i].data.settings, r.calls[i].now), r.calls[i].now)
  {
    hide Step, Tokens.IssueClaims;
    GrantLaws.ClaimsIssued(r, i);
    IssuedLast(r.states[i].data.settings, r.answers[i].reply.risk.level, r.answers[i].reply.claims, r.calls[i].now);
  }

  /** With no days of grace stored, a cache that holds the token opens exactly until the token expires. */
  lemma NoGraceNoOffline(r: Run, i: nat, key: OfflineSdk.PublicKey, cached: OfflineSdk.Cached, now: Time)
    requires IsRun(r) && i < |r.calls| && Unix(r.calls[i].now) != 0
    requires r.answers[i].Verified? && r.answers[i].reply.Granted?
    requires r.states[i].data.settings.offlineGraceDays == 0
    requires cached.token == r.answers[i].reply.claims
    requires OfflineSdk.Refusal(key, cached.token.appId, cached) == None
    ensures OfflineSdk.Allows(OfflineSdk.Authorize(Some(key), cached.token.appId, cached, now)) <==>
              now <= cached.token.expiresAt * SECOND
  {
    hide Step, OfflineSdk.Refusal;
    GrantLifetimes(r, i);
    Tokens.NormalizeMeans(r.states[i].data.settings, r.calls[i].now);
  }

  // ----- the risk of a grant -----

  /** The release a grant's report names, filed under the application of its claims. */
  function ReleaseOf(r: Run, i: nat): Option<Release>
    requires |r.states| == |r.calls| + 1 && |r.answers| == |r.calls| && i < |r.calls|
    requires r.calls[i].command.Verify? && r.answers[i].Verified? && r.answers[i].reply.Granted?
  {
    var req := r.calls[i].command.request;
    Verification.ReportedRelease(r.states[i].data, r.answers[i].reply.claims.appId, req.platform, req.integrity)
  }

  /** The risk answered with a grant is the score of its report: ten, and the weights of the signs shown. */
  lemma GrantRisk(r: Run, i: nat)
    requires IsRun(r) && Valid(r.states[0]) && i < |r.calls| && r.answers[i].Verified? && r.answers[i].reply.Granted?
    ensures r.calls[i].command.Verify?
    ensures var report, risk := r.calls[i].command.request.integrity, r.answers[i].reply.risk;
            var total := ScoreLaws.Total(ReleaseOf(r, i), report);
            && risk.score == (if 10 + total > 100 then 100 else 10 + total)
            && (risk.level == High <==> risk.score >= 80) && (risk.level == Low <==> risk.score < 45)
  {
    hide Step, Valid, IntegrityCheck.Assess, IntegrityCheck.Signals, Verification.ReportedRelease, ScoreLaws.Total;
    assert Stepped(r, i);
    ActivationLaws.StepAnswers(r.states[i], r.calls[i]);
    StepInvariants.RunKeeps(r, i, i);
    RiskOfGrant(r.states[i], r.calls[i].command.request, r.calls[i].now);
    ScoreLaws.ScoreTells(ReleaseOf(r, i), r.calls[i].command.request.integrity);
  }

  lemma RiskOfGrant(w: World, req: Verification.Request, now: Time)
    requires Valid(w) && Verification.Verify(w, req, now).1.Granted?
    ensures var reply := Verification.Verify(w, req, now).1;
            reply.risk == IntegrityCheck.Assess(Verification.SignalsOn(w.data, reply.claims.appId, req.platform,
                                                                       req.integrity))
  {
    hide Verification.Verify, VerifyLaws.PassesGates, VerifyLaws.Heard, IntegrityCheck.Assess, IntegrityCheck.Denies,
      Verification.SignalsOn, Valid, VerifyLaws.LicenseOf, VerifyLaws.DeviceOf, VerifyLaws.ActivationsAfter,
      VerifyLaws.DeviceAfter, VerifyLaws.RatesAndChallengesAfter;
    VerifyLaws.VerifyEffect(w, req, now);
  }

  /** A client with a debugger attached never gets the long lifetime, unless the two stored are the same. */
  lemma DebuggerShortens(r: Run, i: nat)
    requires IsRun(r) && Valid(r.states[0]) && i < |r.calls| && r.answers[i].Verified? && r.answers[i].reply.Granted?
    requires r.calls[i].command.Verify? && r.calls[i].command.request.integrity.debuggerDetected
    ensures var s, c := Tokens.Normalize(r.states[i].data.settings, r.calls[i].now), r.answers[i].reply.claims;
            && c.expiresAt == c.issuedAt + 60 * s.mediumRiskTtlMinutes
            && (s.mediumRiskTtlMinutes != s.tokenTtlMinutes ==> c.expiresAt < c.issuedAt + 60 * s.tokenTtlMinutes)
  {
    hide Step, Valid, Tokens.Normalize;
    GrantLifetimes(r, i);
    GrantRisk(r, i);
    DebuggerWeighs(ReleaseOf(r, i), r.calls[i].command.request.integrity);
    Tokens.NormalizeIsProjection(r.states[i].data.settings, r.calls[i].now);
  }

  lemma DebuggerWeighs(release: Option<Release>, i: Integrity)
    requires i.debuggerDetected
    ensures ScoreLaws.Total(release, i) >= 40
  {
    assert ScoreLaws.Weighed(release, i, DebuggerDetected) == 40;
  }
}
