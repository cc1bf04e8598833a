/** System settings, their normalisation, and the lifetimes of the tokens issued under them. */
module Tokens {
  import opened Types

  function ClampInt(value: int, min: int, max: int): (r: int)
    ensures min <= max ==> min <= r <= max
    ensures min <= value <= max ==> r == value
  {
    if value < min then min else if value > max then max else value
  }

  function DefaultSettings(now: Time): Settings {
    Settings(12 * 60, 30, 7, 3, 365, 365, false, false, now)
  }

  /** Missing or negative fields take their defaults, then every field is clamped. */
  function Normalize(s: Settings, now: Time): Settings {
    var d := DefaultSettings(now);
    var ttl := ClampInt(if s.tokenTtlMinutes <= 0 then d.tokenTtlMinutes else s.tokenTtlMinutes, 5, 30 * 24 * 60);
    Settings(
      ttl,
      ClampInt(if s.mediumRiskTtlMinutes <= 0 then d.mediumRiskTtlMinutes else s.mediumRiskTtlMinutes, 5, ttl),
      ClampInt(if s.offlineGraceDays < 0 then d.offlineGraceDays else s.offlineGraceDays, 0, 30),
      ClampInt(if s.maxDevices <= 0 then d.maxDevices else s.maxDevices, 1, 1000),
      ClampInt(if s.licenseDays <= 0 then d.licenseDays else s.licenseDays, 1, 3650),
      ClampInt(if s.auditDays <= 0 then d.auditDays else s.auditDays, 7, 3650),
      s.mfaRequired,
      s.confirmSensitive,
      if s.updatedAt == ZERO_TIME then now else s.updatedAt)
  }

  predicate WithinBounds(s: Settings) {
    && 5 <= s.mediumRiskTtlMinutes <= s.tokenTtlMinutes <= 30 * 24 * 60
    && 0 <= s.offlineGraceDays <= 30
    && 1 <= s.maxDevices <= 1000
    && 1 <= s.licenseDays <= 3650
    && 7 <= s.auditDays <= 3650
  }

  /** Normalising lands within bounds and touches nothing but fields out of bounds and an unset timestamp. */
  lemma NormalizeIsProjection(s: Settings, now: Time)
    ensures WithinBounds(Normalize(s, now))
    ensures Normalize(s, now) == s <==> WithinBounds(s) && (s.updatedAt == ZERO_TIME ==> now == ZERO_TIME)
  {
    var r := Normalize(s, now);
    assert r == s ==> r.updatedAt == s.updatedAt;
  }

  /** A number of days or minutes as it is used: one out of bounds is drawn to the nearer bound. */
  predicate DrawnInto(value: int, low: int, high: int, used: int) {
    && low <= used <= high
    && (value <= low ==> used == low) && (value >= high ==> used == high) && (low <= value <= high ==> used == value)
  }

  /** Field by field: what is missing takes its default, and the rest is drawn into its bounds. */
  lemma NormalizeMeans(s: Settings, now: Time)
    ensures var n := Normalize(s, now);
            && DrawnInto(if s.tokenTtlMinutes <= 0 then 720 else s.tokenTtlMinutes, 5, 43_200, n.tokenTtlMinutes)
            && DrawnInto(if s.mediumRiskTtlMinutes <= 0 then 30 else s.mediumRiskTtlMinutes, 5, n.tokenTtlMinutes,
                         n.mediumRiskTtlMinutes)
            && DrawnInto(if s.offlineGraceDays < 0 then 7 else s.offlineGraceDays, 0, 30, n.offlineGraceDays)
            && DrawnInto(if s.maxDevices <= 0 then 3 else s.maxDevices, 1, 1000, n.maxDevices)
            && DrawnInto(if s.licenseDays <= 0 then 365 else s.licenseDays, 1, 3650, n.licenseDays)
            && DrawnInto(if s.auditDays <= 0 then 365 else s.auditDays, 7, 3650, n.auditDays)
            && n.mfaRequired == s.mfaRequired && n.confirmSensitive == s.confirmSensitive
            && n.updatedAt == if s.updatedAt == ZERO_TIME then now else s.updatedAt
  {
  }

  /** What a clock can read: some instant after the zero time. */
  predicate IsReading(now: Time) {
    now > ZERO_TIME
  }

  /** Normalising again, whatever the clock reads then, changes nothing. */
  lemma NormalizeIdempotent(s: Settings, now: Time, later: Time)
    requires IsReading(now)
    ensures Normalize(Normalize(s, now), later) == Normalize(s, now)
  {
    NormalizeIsProjection(s, now);
    NormalizeIsProjection(Normalize(s, now), later);
  }

  function TokenTtl(s: Settings, level: Severity): Time {
    (if level == Medium || level == High then s.mediumRiskTtlMinutes else s.tokenTtlMinutes) * MINUTE
  }

  function OfflineGrace(s: Settings): Time {
    s.offlineGraceDays * DAY
  }

  /** The claims signed for a request; the source reads the clock once for each of the three times. */
  function IssueClaims(stored: Settings, level: Severity, appId: string, licenseId: Id, deviceId: Id,
                       entitlements: seq<string>, atExpiry: Time, atGrace: Time, atIssue: Time): Claims
  {
    var s := Normalize(stored, atExpiry);
    Claims(appId, licenseId, deviceId, entitlements,
           Unix(atIssue), Unix(atExpiry + TokenTtl(s, level)), Unix(atGrace + OfflineGrace(s)))
  }

  /** Whatever is stored, a token lives and may be used offline for at most thirty days, and for five minutes at least. */
  lemma LifetimeBounds(stored: Settings, level: Severity, appId: string, licenseId: Id, deviceId: Id,
                       entitlements: seq<string>, atExpiry: Time, atGrace: Time, atIssue: Time)
    requires atExpiry <= atGrace <= atIssue
    ensures var c := IssueClaims(stored, level, appId, licenseId, deviceId, entitlements, atExpiry, atGrace, atIssue);
            && c.expiresAt <= c.issuedAt + 30 * 86_400
            && c.graceUntil <= c.issuedAt + 30 * 86_400
            && c.expiresAt * SECOND >= atExpiry + 5 * MINUTE - SECOND
            && c.graceUntil >= Unix(atGrace)
  {
    NormalizeIsProjection(stored, atExpiry);
  }

  /** A riskier client never gets the longer token. */
  lemma RiskShortens(stored: Settings, appId: string, licenseId: Id, deviceId: Id, entitlements: seq<string>,
                     level: Severity, t0: Time, t1: Time, t2: Time)
    ensures IssueClaims(stored, level, appId, licenseId, deviceId, entitlements, t0, t1, t2).expiresAt
            <= IssueClaims(stored, Low, appId, licenseId, deviceId, entitlements, t0, t1, t2).expiresAt
  {
    NormalizeIsProjection(stored, t0);
  }
}
