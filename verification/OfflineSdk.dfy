/** The client library deciding from its cached token, without the server. */
module OfflineSdk {
  import opened Types
  import opened Tokens

  /** What is cached: the token, the textual times already parsed (None where they do not parse), the rest as is. */
  datatype Cached = Cached(
    token: Claims, expiresAt: Option<Time>, graceUntil: Option<Time>, entitlements: seq<string>, bundle: Option<Bundle>)

  datatype Authorization = Authorization(
    allowed: bool, requiresOnline: bool, inOfflineGrace: bool, expiresAt: Option<Time>, graceUntil: Option<Time>,
    entitlements: seq<string>, bundle: Option<Bundle>, claims: Option<Claims>)

  datatype Outcome = Decided(auth: Authorization) | BadToken | AppMismatch | BadBundle | BundleAppMismatch

  /** The public key a client holds, as the tokens and bundles whose signatures it accepts. */
  datatype PublicKey = PublicKey(tokens: set<Claims>, bundles: set<Bundle>)

  predicate TimeValid(t: Option<Time>, now: Time) {
    t.Some? && now <= t.value
  }

  function ParseUnix(t: Option<Time>): int {
    if t.None? then 0 else Unix(t.value)
  }

  /** The claimed end of the grace period, or the cached one where the claim is absent. */
  function GraceOf(cached: Cached): int {
    if cached.token.graceUntil == 0 then ParseUnix(cached.graceUntil) else cached.token.graceUntil
  }

  function Refusal(key: PublicKey, appId: string, cached: Cached): Option<Outcome> {
    if cached.token !in key.tokens then Some(BadToken)
    else if cached.token.appId != appId then Some(AppMismatch)
    else if cached.bundle.None? then None
    else if cached.bundle.value !in key.bundles then Some(BadBundle)
    else if cached.bundle.value.appId != appId then Some(BundleAppMismatch)
    else None
  }

  function Unsigned(cached: Cached, now: Time): Authorization {
    var current := TimeValid(cached.expiresAt, now);
    var grace := !current && TimeValid(cached.graceUntil, now);
    Authorization(current || grace, !current, grace, cached.expiresAt, cached.graceUntil, cached.entitlements, None, None)
  }

  function Signed(cached: Cached, now: Time): Authorization {
    var c := cached.token;
    var current := now <= c.expiresAt * SECOND;
    var grace := !current && GraceOf(cached) > 0 && now <= GraceOf(cached) * SECOND;
    Authorization(current || grace, grace, grace, Some(c.expiresAt * SECOND),
                  if !current && GraceOf(cached) > 0 then Some(GraceOf(cached) * SECOND) else None,
                  c.entitlements, cached.bundle, Some(c))
  }

  function Authorize(key: Option<PublicKey>, appId: string, cached: Cached, now: Time): Outcome {
    if key.None? then Decided(Unsigned(cached, now))
    else match Refusal(key.value, appId, cached)
      case Some(refused) => refused
      case None => Decided(Signed(cached, now))
  }

  method CachedAuthorization(key: Option<PublicKey>, appId: string, cached: Cached, now: Time) returns (r: Outcome)
    ensures r == Authorize(key, appId, cached, now)
  {
    var auth := Authorization(false, false, false, None, None, cached.entitlements, None, None);
    if key.None? {
      auth := auth.(allowed := TimeValid(cached.expiresAt, now));
      auth := auth.(requiresOnline := !auth.allowed);
      auth := auth.(inOfflineGrace := !auth.allowed && TimeValid(cached.graceUntil, now));
      if auth.inOfflineGrace {
        auth := auth.(allowed := true);
        auth := auth.(requiresOnline := true);
      }
      auth := auth.(expiresAt := cached.expiresAt);
      auth := auth.(graceUntil := cached.graceUntil);
      return Decided(auth);
    }
    if cached.token !in key.value.tokens {
      return BadToken;
    }
    var claims := cached.token;
    if claims.appId != appId {
      return AppMismatch;
    }
    if cached.bundle.Some? {
      if cached.bundle.value !in key.value.bundles {
        return BadBundle;
      }
      if cached.bundle.value.appId != appId {
        return BundleAppMismatch;
      }
      auth := auth.(bundle := cached.bundle);
    }
    var expiresAt := claims.expiresAt * SECOND;
    auth := auth.(claims := Some(claims));
    auth := auth.(expiresAt := Some(expiresAt));
    auth := auth.(entitlements := claims.entitlements);
    if now <= expiresAt {
      auth := auth.(allowed := true);
      return Decided(auth);
    }
    var graceUnix := claims.graceUntil;
    if graceUnix == 0 {
      graceUnix := ParseUnix(cached.graceUntil);
    }
    if graceUnix > 0 {
      var graceUntil := graceUnix * SECOND;
      auth := auth.(graceUntil := Some(graceUntil));
      if now <= graceUntil {
        auth := auth.(allowed := true);
        auth := auth.(requiresOnline := true);
        auth := auth.(inOfflineGrace := true);
      }
    }
    return Decided(auth);
  }

  predicate Allows(r: Outcome) {
    r.Decided? && r.auth.allowed
  }

  function CurrentEntitlements(key: Option<PublicKey>, appId: string, cached: Cached, now: Time): seq<string> {
    var r := Authorize(key, appId, cached, now);
    if Allows(r) then r.auth.entitlements else []
  }

  predicate IsAllowed(key: Option<PublicKey>, appId: string, cached: Cached, feature: string, now: Time) {
    feature in CurrentEntitlements(key, appId, cached, now)
  }

  function Max(a: int, b: int): int {
    if a < b then b else a
  }

  /** With the key, a cache that passes the signature checks is allowed exactly up to its later deadline. */
  lemma AllowedUntil(key: PublicKey, appId: string, cached: Cached, now: Time)
    requires Refusal(key, appId, cached) == None && cached.token.graceUntil > 0
    ensures Allows(Authorize(Some(key), appId, cached, now))
            <==> now <= Max(cached.token.expiresAt, cached.token.graceUntil) * SECOND
  {
  }

  /** Once refused, an unchanged cache stays refused: with or without the key, whatever it holds. */
  lemma RefusedForGood(key: Option<PublicKey>, appId: string, cached: Cached, now: Time, later: Time)
    requires now <= later && !Allows(Authorize(key, appId, cached, now))
    ensures !Allows(Authorize(key, appId, cached, later))
    ensures forall feature :: !IsAllowed(key, appId, cached, feature, later)
  {
  }

  /**
   End to end: a token issued under any stored settings and cached by a client that holds the key opens
   the application exactly until the later of its two deadlines, and never past thirty days from issue.
   */
  lemma OfflineBound(stored: Settings, level: Severity, appId: string, licenseId: Id, deviceId: Id,
                     entitlements: seq<string>, atExpiry: Time, atGrace: Time, atIssue: Time,
                     key: PublicKey, cached: Cached, now: Time)
    requires SECOND <= atExpiry <= atGrace <= atIssue
    requires cached.token
             == IssueClaims(stored, level, appId, licenseId, deviceId, entitlements, atExpiry, atGrace, atIssue)
    requires Refusal(key, appId, cached) == None
    ensures Allows(Authorize(Some(key), appId, cached, now))
            <==> now <= Max(cached.token.expiresAt, cached.token.graceUntil) * SECOND
    ensures Allows(Authorize(Some(key), appId, cached, now)) ==> now <= atIssue + 30 * DAY
    ensures forall feature :: IsAllowed(Some(key), appId, cached, feature, now) ==> feature in entitlements
  {
    LifetimeBounds(stored, level, appId, licenseId, deviceId, entitlements, atExpiry, atGrace, atIssue);
    AllowedUntil(key, appId, cached, now);
  }

  /** Without the key the cached times decide, each where it parsed: open to the later, online wanted past the first. */
  lemma UnsignedTells(appId: string, cached: Cached, now: Time)
    ensures var r := Authorize(None, appId, cached, now);
            && r.Decided?
            && var current := cached.expiresAt.Some? && now <= cached.expiresAt.value;
               var grace := cached.graceUntil.Some? && now <= cached.graceUntil.value;
               r.auth == Authorization(current || grace, !current, !current && grace, cached.expiresAt, cached.graceUntil,
                                       cached.entitlements, None, None)
  {
  }

  /** With the key: the first thing wrong with token or bundle, else a decision for the token's own entitlements. */
  lemma SignedTells(key: PublicKey, appId: string, cached: Cached, now: Time)
    ensures var r, c := Authorize(Some(key), appId, cached, now), cached.token;
            if c !in key.tokens then r == BadToken
            else if c.appId != appId then r == AppMismatch
            else if cached.bundle.Some? && cached.bundle.value !in key.bundles then r == BadBundle
            else if cached.bundle.Some? && cached.bundle.value.appId != appId then r == BundleAppMismatch
            else
              && r.Decided? && r.auth.claims == Some(c) && r.auth.entitlements == c.entitlements
              && r.auth.bundle == cached.bundle && r.auth.expiresAt == Some(c.expiresAt * SECOND)
              && (now <= c.expiresAt * SECOND ==> r.auth.allowed && !r.auth.requiresOnline && !r.auth.inOfflineGrace)
              && (now > c.expiresAt * SECOND ==>
                    var until := if c.graceUntil != 0 then c.graceUntil
                                 else if cached.graceUntil.Some? then Unix(cached.graceUntil.value) else 0;
                    && (r.auth.allowed <==> until > 0 && now <= until * SECOND)
                    && r.auth.requiresOnline == r.auth.inOfflineGrace == r.auth.allowed
                    && r.auth.graceUntil == if until > 0 then Some(until * SECOND) else None)
  {
  }

  /** A feature is open exactly while the cache is, to the entitlements signed or, without the key, those cached. */
  lemma FeatureTells(key: Option<PublicKey>, appId: string, cached: Cached, feature: string, now: Time)
    ensures IsAllowed(key, appId, cached, feature, now) <==>
              && Allows(Authorize(key, appId, cached, now))
              && feature in if key.Some? then cached.token.entitlements else cached.entitlements
  {
  }
}
