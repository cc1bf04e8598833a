/** Capability policies: the stored list, the decision it gives online, and the bundle that is signed ahead. */
module Policies {
  import opened Types
  import opened Lookup
  import opened Sorting
  import opened Text

  type PolicyKey = (string, string)

  function KeyOf(p: Policy): PolicyKey {
    (p.appId, p.capability)
  }

  function NormalizeMode(mode: string): string {
    var m := ToLower(TrimSpace(mode));
    if m == "" then "block" else m
  }

  predicate ValidMode(mode: string) {
    mode in ["allow", "block", "hide", "readonly", "degrade", "watermark", "warn"]
  }

  /** An admin's policy as it will be stored, or None where a field is missing or the mode unknown. */
  function NormalizePolicy(appId: string, item: Policy, now: Time): (r: Option<Policy>)
    ensures r.Some? ==> IsTrimmed(r.value.capability) && r.value.appId == appId && r.value.capability != ""
  {
    var capability, entitlement := TrimSpace(item.capability), TrimSpace(item.requiredEntitlement);
    var mode := NormalizeMode(item.mode);
    if capability == "" || entitlement == "" || !ValidMode(mode) then None
    else Some(Policy(appId, capability, entitlement, mode, TrimSpace(item.message), now, now))
  }

  // ----- the list as a map -----

  ghost predicate UniqueKeys(ps: seq<Policy>) {
    forall i, j | 0 <= i < j < |ps| :: KeyOf(ps[i]) != KeyOf(ps[j])
  }

  ghost predicate TrimmedCapabilities(ps: seq<Policy>) {
    forall p | p in ps :: IsTrimmed(p.capability)
  }

  /** What a search of the list finds, key by key. */
  ghost function AsMap(ps: seq<Policy>): (m: map<PolicyKey, Policy>)
    ensures forall k :: k in m <==> PolicyFor(ps, k.0, k.1) < |ps|
    ensures forall k | k in m :: m[k] == ps[PolicyFor(ps, k.0, k.1)]
  {
    var keys := set p | p in ps :: KeyOf(p);
    assert forall k :: k in keys <==> PolicyFor(ps, k.0, k.1) < |ps| by {
      forall k ensures k in keys <==> PolicyFor(ps, k.0, k.1) < |ps| {
        var i := PolicyFor(ps, k.0, k.1);
        if i < |ps| {
          assert ps[i] in ps && KeyOf(ps[i]) == k;
        }
      }
    }
    map k | k in keys :: ps[PolicyFor(ps, k.0, k.1)]
  }

  /** An unset creation time is taken from the update. */
  function CreatedAt(created: Time, updated: Time): Time {
    if created == ZERO_TIME then updated else created
  }

  function Stored(p: Policy, created: Time): Policy {
    p.(mode := NormalizeMode(p.mode), createdAt := CreatedAt(created, p.updatedAt))
  }

  function Upsert(ps: seq<Policy>, p: Policy): (r: seq<Policy>)
    ensures |ps| <= |r| <= |ps| + 1
  {
    var i := PolicyFor(ps, p.appId, p.capability);
    if i < |ps| then ps[i := Stored(p, ps[i].createdAt)] else ps + [Stored(p, p.createdAt)]
  }

  function UpsertAll(ps: seq<Policy>, batch: seq<Policy>): seq<Policy> {
    if batch == [] then ps else Upsert(UpsertAll(ps, batch[..|batch| - 1]), batch[|batch| - 1])
  }

  ghost function Override(m: map<PolicyKey, Policy>, p: Policy): map<PolicyKey, Policy> {
    m[KeyOf(p) := Stored(p, if KeyOf(p) in m then m[KeyOf(p)].createdAt else p.createdAt)]
  }

  ghost function OverrideAll(m: map<PolicyKey, Policy>, batch: seq<Policy>): map<PolicyKey, Policy> {
    if batch == [] then m else Override(OverrideAll(m, batch[..|batch| - 1]), batch[|batch| - 1])
  }

  /** Upserting keeps every position's key, so searches for other keys are not disturbed. */
  lemma UpsertLookup(ps: seq<Policy>, p: Policy, appId: string, capability: string)
    ensures var r := Upsert(ps, p);
            var i, j := PolicyFor(ps, appId, capability), PolicyFor(r, appId, capability);
            if (appId, capability) == KeyOf(p) then
              j < |r| && r[j] == Stored(p, if i < |ps| then ps[i].createdAt else p.createdAt)
            else
              (j < |r| <==> i < |ps|) && (i < |ps| ==> j == i && r[j] == ps[i])
  {
    hide Stored;
    StoredKey(p);
    var r := Upsert(ps, p);
    var i, j := PolicyFor(ps, appId, capability), PolicyFor(r, appId, capability);
    assert forall k | 0 <= k < |ps| :: KeyOf(r[k]) == KeyOf(ps[k]);
    if (appId, capability) == KeyOf(p) {
      assert i < |r| && KeyOf(r[i]) == KeyOf(p);
    }
  }

  lemma StoredKey(p: Policy)
    ensures forall c :: KeyOf(Stored(p, c)) == KeyOf(p)
  {
  }

  /** Upserting into the list is overriding in the map. */
  lemma UpsertRefines(ps: seq<Policy>, p: Policy)
    ensures AsMap(Upsert(ps, p)) == Override(AsMap(ps), p)
  {
    hide Upsert, Stored;
    var a, b := AsMap(Upsert(ps, p)), Override(AsMap(ps), p);
    forall k: PolicyKey ensures (k in a <==> k in b) && (k in a ==> a[k] == b[k]) {
      UpsertLookup(ps, p, k.0, k.1);
    }
  }

  lemma {:induction false} UpsertAllRefines(ps: seq<Policy>, batch: seq<Policy>)
    ensures AsMap(UpsertAll(ps, batch)) == OverrideAll(AsMap(ps), batch)
  {
    if batch != [] {
      hide Upsert, Override, AsMap;
      UpsertAllRefines(ps, batch[..|batch| - 1]);
      UpsertRefines(UpsertAll(ps, batch[..|batch| - 1]), batch[|batch| - 1]);
    }
  }

  lemma UpsertUnique(ps: seq<Policy>, p: Policy)
    requires UniqueKeys(ps)
    ensures UniqueKeys(Upsert(ps, p))
  {
    hide Stored;
    StoredKey(p);
  }

  lemma {:induction false} UpsertAllUnique(ps: seq<Policy>, batch: seq<Policy>)
    requires UniqueKeys(ps)
    ensures UniqueKeys(UpsertAll(ps, batch))
  {
    if batch != [] {
      hide Upsert, UniqueKeys;
      UpsertAllUnique(ps, batch[..|batch| - 1]);
      UpsertUnique(UpsertAll(ps, batch[..|batch| - 1]), batch[|batch| - 1]);
    }
  }

  /** The last item of a batch with a given key, or |batch|. */
  function LastFor(batch: seq<Policy>, k: PolicyKey): (i: nat)
    ensures i <= |batch|
    ensures i < |batch| ==> KeyOf(batch[i]) == k && forall j | i < j < |batch| :: KeyOf(batch[j]) != k
    ensures i == |batch| ==> forall j | 0 <= j < |batch| :: KeyOf(batch[j]) != k
  {
    if batch == [] then 0
    else
      var n := |batch| - 1;
      if KeyOf(batch[n]) == k then n
      else
        var i := LastFor(batch[..n], k);
        if i == n then |batch| else i
  }

  /** The first item of a batch with a given key, or |batch|. */
  function FirstFor(batch: seq<Policy>, k: PolicyKey): (i: nat)
    ensures i <= |batch|
    ensures i < |batch| ==> KeyOf(batch[i]) == k
    ensures forall j | 0 <= j < i :: KeyOf(batch[j]) != k
  {
    First(batch, (p: Policy) => KeyOf(p) == k)
  }

  /** When the policy of a key named in a batch was created: as stored before, else as its first item says. */
  function Birth(m: map<PolicyKey, Policy>, batch: seq<Policy>, k: PolicyKey): Time
    requires FirstFor(batch, k) < |batch|
  {
    var first := batch[FirstFor(batch, k)];
    CreatedAt(if k in m then m[k].createdAt else first.createdAt, first.updatedAt)
  }

  /**
   In a batch the last item for a key wins, with the creation time stored before or, for a new key, its first item's;
   keys not named stay.
   */
  lemma {:induction false} BatchMeaning(m: map<PolicyKey, Policy>, batch: seq<Policy>, k: PolicyKey)
    ensures var r := OverrideAll(m, batch);
            var first, last := FirstFor(batch, k), LastFor(batch, k);
            && (last == |batch| <==> first == |batch|)
            && (last == |batch| ==> (k in r <==> k in m) && (k in m ==> r[k] == m[k]))
            && (last < |batch| ==> k in r)
            && (last < |batch| && Birth(m, batch, k) != ZERO_TIME ==> r[k] == Stored(batch[last], Birth(m, batch, k)))
  {
    hide Override, KeyOf, NormalizeMode;
    if batch != [] {
      var n := |batch| - 1;
      OverrideAt(OverrideAll(m, batch[..n]), batch[n], k);
      BatchMeaning(m, batch[..n], k);
      SameFirst(batch, k);
    }
  }

  lemma SameFirst(batch: seq<Policy>, k: PolicyKey)
    requires batch != []
    ensures var n := |batch| - 1;
            var i := FirstFor(batch[..n], k);
            FirstFor(batch, k) == if i < n || KeyOf(batch[n]) == k then i else |batch|
  {
    hide KeyOf, First;
  }

  lemma OverrideAt(m: map<PolicyKey, Policy>, p: Policy, k: PolicyKey)
    ensures var r := Override(m, p);
            && (k != KeyOf(p) ==> (k in r <==> k in m) && (k in m ==> r[k] == m[k]))
            && (k == KeyOf(p) ==> k in r && r[k] == Stored(p, if k in m then m[k].createdAt else p.createdAt))
  {
  }

  // ----- seeding defaults -----

  function AddMissing(ps: seq<Policy>, p: Policy): seq<Policy> {
    if PolicyFor(ps, p.appId, p.capability) < |ps| then ps else ps + [p]
  }

  function Seed(ps: seq<Policy>, wanted: seq<Policy>): seq<Policy> {
    if wanted == [] then ps else AddMissing(Seed(ps, wanted[..|wanted| - 1]), wanted[|wanted| - 1])
  }

  function Default(appId: string, capability: string, entitlement: string, mode: string, message: string,
                   now: Time): Policy
  {
    Policy(appId, capability, entitlement, mode, message, now, now)
  }

  function VisionFlowDefaults(appId: string, now: Time): seq<Policy> {
    [ Default(appId, "automation.run", "visionflow.automation", "block", "当前 License 未包含自动化任务能力", now),
      Default(appId, "automation.resume", "visionflow.automation", "block", "当前 License 未包含任务恢复能力", now),
      Default(appId, "automation.batch", "visionflow.batch", "block", "当前 License 未包含批量任务能力", now),
      Default(appId, "script.execute", "visionflow.automation", "block", "当前 License 未包含脚本执行能力", now),
      Default(appId, "export.video", "visionflow.export", "watermark", "当前 License 未包含无水印导出能力", now),
      Default(appId, "plugin.install", "visionflow.plugin", "block", "当前 License 未包含插件安装能力", now),
      Default(appId, "update.skipMandatory", "visionflow.update", "block", "当前 License 不允许跳过强制更新", now) ]
  }

  predicate Has(ps: seq<Policy>, k: PolicyKey) {
    PolicyFor(ps, k.0, k.1) < |ps|
  }

  /** Seeding only appends, keeps keys unique, and leaves every wanted key present. */
  lemma {:induction false} SeedOnlyAdds(ps: seq<Policy>, wanted: seq<Policy>)
    ensures ps <= Seed(ps, wanted)
    ensures UniqueKeys(ps) ==> UniqueKeys(Seed(ps, wanted))
    ensures forall k | Has(ps, k) :: Has(Seed(ps, wanted), k)
    ensures forall w | w in wanted :: Has(Seed(ps, wanted), KeyOf(w))
    ensures forall p | p in Seed(ps, wanted) :: p in ps || p in wanted
  {
    if wanted != [] {
      hide AddMissing, Has, UniqueKeys;
      var n := |wanted| - 1;
      SeedOnlyAdds(ps, wanted[..n]);
      AddMissingFacts(Seed(ps, wanted[..n]), wanted[n]);
    }
  }

  lemma AddMissingFacts(ps: seq<Policy>, p: Policy)
    ensures ps <= AddMissing(ps, p)
    ensures forall q | q in AddMissing(ps, p) :: q in ps || q == p
    ensures UniqueKeys(ps) ==> UniqueKeys(AddMissing(ps, p))
    ensures forall k | Has(ps, k) || k == KeyOf(p) :: Has(AddMissing(ps, p), k)
  {
    var r := AddMissing(ps, p);
    forall k: PolicyKey | Has(ps, k) || k == KeyOf(p) ensures Has(r, k) {
      var i := PolicyFor(ps, k.0, k.1);
      if i < |ps| {
        assert KeyOf(r[i]) == k;
      } else if r != ps {
        assert KeyOf(r[|ps|]) == k;
      }
    }
  }

  lemma {:induction false} SeedPresent(ps: seq<Policy>, wanted: seq<Policy>)
    requires forall w | w in wanted :: Has(ps, KeyOf(w))
    ensures Seed(ps, wanted) == ps
  {
    if wanted != [] {
      SeedPresent(ps, wanted[..|wanted| - 1]);
      assert wanted[|wanted| - 1] in wanted;
    }
  }

  /** Seeding never overwrites a stored policy, and seeding again, with any later clock, adds nothing. */
  lemma SeedKeepsAndSettles(ps: seq<Policy>, appId: string, now: Time, later: Time)
    ensures var r := Seed(ps, VisionFlowDefaults(appId, now));
            && (forall k | k in AsMap(ps) :: k in AsMap(r) && AsMap(r)[k] == AsMap(ps)[k])
            && Seed(r, VisionFlowDefaults(appId, later)) == r
  {
    hide VisionFlowDefaults, Seed, Has;
    var wanted, again := VisionFlowDefaults(appId, now), VisionFlowDefaults(appId, later);
    SameDefaultKeys(appId, now, later);
    var r := Seed(ps, wanted);
    SeedOnlyAdds(ps, wanted);
    forall w | w in again ensures Has(r, KeyOf(w)) {
      var k :| 0 <= k < |again| && again[k] == w;
      assert wanted[k] in wanted;
    }
    SeedPresent(r, again);
    PrefixSearch(ps, r);
  }

  lemma PrefixSearch(ps: seq<Policy>, r: seq<Policy>)
    requires ps <= r
    ensures forall k | k in AsMap(ps) :: k in AsMap(r) && AsMap(r)[k] == AsMap(ps)[k]
  {
    forall k | k in AsMap(ps) ensures k in AsMap(r) && AsMap(r)[k] == AsMap(ps)[k] {
      var i := PolicyFor(ps, k.0, k.1);
      assert r[i] == ps[i];
      assert PolicyFor(r, k.0, k.1) == i;
    }
  }

  lemma DefaultsTrimmed(appId: string, now: Time)
    ensures TrimmedCapabilities(VisionFlowDefaults(appId, now))
  {
    hide IsSpace;
    LettersAreNotSpace();
  }

  lemma LettersAreNotSpace()
    ensures forall c: char | 'a' <= c <= 'z' :: !IsSpace(c)
  {
  }

  lemma SameDefaultKeys(appId: string, now: Time, later: Time)
    ensures var a, b := VisionFlowDefaults(appId, now), VisionFlowDefaults(appId, later);
            |a| == |b| && forall k | 0 <= k < |a| :: KeyOf(a[k]) == KeyOf(b[k])
  {
  }

  // ----- deciding -----

  predicate HasEntitlement(entitlements: seq<string>, required: string) {
    TrimSpace(required) == "" || TrimSpace(required) in entitlements
  }

  function Decide(policy: Option<Policy>, entitlements: seq<string>, capability: string): Decision {
    if policy.None? then
      Decision(capability, "", "block", "block", false, UnknownCapability, "Capability is not registered")
    else
      var p := policy.value;
      var m := NormalizeMode(p.mode);
      var mode := if ValidMode(m) then m else "block";
      if HasEntitlement(entitlements, p.requiredEntitlement) then
        Decision(p.capability, p.requiredEntitlement, mode, "allow", true, Unstated, p.message)
      else
        Decision(p.capability, p.requiredEntitlement, mode, if mode == "allow" then "block" else mode, false,
                 MissingEntitlement, p.message)
  }

  function Registered(ps: seq<Policy>, appId: string, capability: string): Option<Policy> {
    var i := PolicyFor(ps, appId, capability);
    if i < |ps| then Some(ps[i]) else None
  }

  /** A capability is allowed exactly when it is registered and the entitlement held; a refusal never reads as "allow". */
  lemma DecisionIsSound(policy: Option<Policy>, entitlements: seq<string>, capability: string)
    ensures var d := Decide(policy, entitlements, capability);
            && (d.allowed <==> policy.Some? && HasEntitlement(entitlements, policy.value.requiredEntitlement))
            && (d.allowed <==> d.effectiveMode == "allow")
            && (d.reason == UnknownCapability <==> policy.None?)
            && ValidMode(d.effectiveMode)
  {
  }

  /** The seven modes a policy can be in. */
  const MODES := {"allow", "block", "hide", "readonly", "degrade", "watermark", "warn"}

  /** The mode a policy counts as: as written, but for case and white space; blocking, if that is none of the seven. */
  function ModeUsed(mode: string): string {
    if ToLower(TrimSpace(mode)) in MODES then ToLower(TrimSpace(mode)) else "block"
  }

  /**
   The whole decision: an unregistered capability is blocked as unknown; a registered one is allowed if its
   entitlement is blank or among those held, and otherwise refused in its own mode, blocked where that is "allow".
   */
  lemma DecisionTells(policy: Option<Policy>, entitlements: seq<string>, capability: string)
    ensures var d := Decide(policy, entitlements, capability);
            if policy.None? then
              && d.capability == capability && d.requiredEntitlement == ""
              && d.configuredMode == d.effectiveMode == "block"
              && !d.allowed && d.reason == UnknownCapability && d.message == "Capability is not registered"
            else
              var p, needed := policy.value, TrimSpace(policy.value.requiredEntitlement);
              && d.capability == p.capability && d.requiredEntitlement == p.requiredEntitlement && d.message == p.message
              && d.configuredMode == ModeUsed(p.mode)
              && (d.allowed <==> needed == "" || exists k | 0 <= k < |entitlements| :: entitlements[k] == needed)
              && (d.allowed ==> d.effectiveMode == "allow" && d.reason == Unstated)
              && (!d.allowed ==> d.reason == MissingEntitlement
                                 && d.effectiveMode == if ModeUsed(p.mode) == "allow" then "block" else ModeUsed(p.mode))
  {
    hide TrimSpace, ToLower;
    BlankIsBlock();
  }

  lemma BlankIsBlock()
    ensures "" !in MODES
  {
  }

  /** The bundle signed for a grant: none without policies, else this licence's decisions on all of them. */
  lemma BundleTells(ps: seq<Policy>, appId: string, licenseId: Id, deviceId: Id, entitlements: seq<string>,
                    issuedAt: int, expiresAt: int)
    ensures var b := BundleFor(ps, appId, licenseId, deviceId, entitlements, issuedAt, expiresAt);
            && (b.None? <==> forall p | p in ps :: p.appId != appId)
            && (b.Some? ==>
                  && b.value.appId == appId && b.value.licenseId == licenseId && b.value.deviceId == deviceId
                  && b.value.entitlements == entitlements
                  && b.value.issuedAt == issuedAt && b.value.expiresAt == expiresAt
                  && (forall d :: d in b.value.decisions <==>
                        exists p :: p in ps && p.appId == appId && d == Decide(Some(p), entitlements, p.capability)))
  {
    hide Decide, PoliciesForApp;
    ForAppIsSortedView(ps, appId);
    var policies := PoliciesForApp(ps, appId);
    var decisions := Decisions(policies, entitlements);
    if policies != [] {
      assert policies[0] in policies;
    }
    forall d ensures d in decisions <==>
                       exists p :: p in ps && p.appId == appId && d == Decide(Some(p), entitlements, p.capability)
    {
      if d in decisions {
        var k :| 0 <= k < |decisions| && decisions[k] == d;
        assert policies[k] in policies;
      }
      if p :| p in ps && p.appId == appId && d == Decide(Some(p), entitlements, p.capability) {
        assert p in policies;
        var k :| 0 <= k < |policies| && policies[k] == p;
        assert decisions[k] == d;
      }
    }
  }

  // ----- the bundle -----

  predicate ByCapability(a: Policy, b: Policy) {
    Less(a.capability, b.capability)
  }

  lemma ByCapabilityIsOrder()
    ensures StrictWeak(ByCapability)
  {
    forall a: Policy, b: Policy ensures ByCapability(a, b) ==> !ByCapability(b, a) {
      LessTotal(a.capability, b.capability);
    }
    forall a: Policy, b: Policy, c: Policy | !ByCapability(b, a) && !ByCapability(c, b) ensures !ByCapability(c, a) {
      LessTotal(a.capability, b.capability);
      LessTotal(b.capability, c.capability);
      LessTotal(a.capability, c.capability);
      if Less(a.capability, b.capability) && Less(b.capability, c.capability) {
        LessTransitive(a.capability, b.capability, c.capability);
      }
    }
  }

  function OfApp(ps: seq<Policy>, appId: string): (r: seq<Policy>)
    ensures forall p :: p in r <==> p in ps && p.appId == appId
  {
    if ps == [] then []
    else
      var n := |ps| - 1;
      OfApp(ps[..n], appId) + (if ps[n].appId == appId then [ps[n]] else [])
  }

  function PoliciesForApp(ps: seq<Policy>, appId: string): seq<Policy> {
    Sort(OfApp(ps, appId), ByCapability)
  }

  function Decisions(policies: seq<Policy>, entitlements: seq<string>): (r: seq<Decision>)
    ensures |r| == |policies|
  {
    seq(|policies|, k requires 0 <= k < |policies| =>
      Decide(Some(policies[k]), entitlements, policies[k].capability))
  }

  function BundleFor(ps: seq<Policy>, appId: string, licenseId: Id, deviceId: Id, entitlements: seq<string>,
                     issuedAt: int, expiresAt: int): Option<Bundle>
  {
    var policies := PoliciesForApp(ps, appId);
    if policies == [] then None
    else Some(Bundle(appId, licenseId, deviceId, entitlements, Decisions(policies, entitlements), issuedAt, expiresAt))
  }

  /** The client's search of its bundle. */
  function FirstDecision(decisions: seq<Decision>, capability: string): (i: nat)
    ensures i <= |decisions|
    ensures i < |decisions| ==> decisions[i].capability == capability
    ensures forall k | 0 <= k < i :: decisions[k].capability != capability
  {
    First(decisions, (d: Decision) => d.capability == capability)
  }

  function BundleDecision(bundle: Option<Bundle>, capability: string): Option<Decision> {
    if bundle.None? then None
    else
      var i := FirstDecision(bundle.value.decisions, capability);
      if i < |bundle.value.decisions| then Some(bundle.value.decisions[i]) else None
  }

  /** The app's policies come out sorted by capability, and are exactly those stored. */
  lemma ForAppIsSortedView(ps: seq<Policy>, appId: string)
    ensures Ordered(PoliciesForApp(ps, appId), ByCapability)
    ensures forall p :: p in PoliciesForApp(ps, appId) <==> p in ps && p.appId == appId
  {
    ByCapabilityIsOrder();
    SortOrdered(OfApp(ps, appId), ByCapability);
    SameItems(OfApp(ps, appId), ByCapability);
  }

  /**
   Looking a capability up in the bundle gives the decision a search of the stored list would, or nothing where that
   finds nothing.
   */
  lemma BundleIsSearch(ps: seq<Policy>, appId: string, licenseId: Id, deviceId: Id, entitlements: seq<string>,
                       issuedAt: int, expiresAt: int, capability: string)
    requires UniqueKeys(ps)
    ensures var bundle := BundleFor(ps, appId, licenseId, deviceId, entitlements, issuedAt, expiresAt);
            var policy := Registered(ps, appId, capability);
            BundleDecision(bundle, capability)
            == if policy.None? then None else Some(Decide(policy, entitlements, capability))
  {
    hide Decide, PoliciesForApp;
    var policies := PoliciesForApp(ps, appId);
    ForAppIsSortedView(ps, appId);
    DecisionCapability();
    var i := PolicyFor(ps, appId, capability);
    var decisions := Decisions(policies, entitlements);
    var j := FirstDecision(decisions, capability);
    if j < |decisions| {
      assert policies[j] in policies;
      var k :| 0 <= k < |ps| && ps[k] == policies[j];
      assert KeyOf(ps[k]) == (appId, capability);
      assert i < |ps| && KeyOf(ps[i]) == KeyOf(ps[k]);
      assert k == i;
    }
    if i < |ps| {
      FoundInBundle(policies, entitlements, ps[i]);
    }
  }

  lemma FoundInBundle(policies: seq<Policy>, entitlements: seq<string>, p: Policy)
    requires p in policies
    ensures FirstDecision(Decisions(policies, entitlements), p.capability) < |policies|
  {
    hide Decide;
    DecisionCapability();
    var k :| 0 <= k < |policies| && policies[k] == p;
    assert Decisions(policies, entitlements)[k].capability == p.capability;
  }

  lemma DecisionCapability()
    ensures forall p: Policy, e, c :: Decide(Some(p), e, c).capability == p.capability
    ensures forall p: Policy, e, c, d :: Decide(Some(p), e, c) == Decide(Some(p), e, d)
  {
  }

  /** What the online check decides: it trims the capability it is asked about. */
  function OnlineDecision(ps: seq<Policy>, appId: string, entitlements: seq<string>, asked: string): Decision {
    Decide(Registered(ps, appId, TrimSpace(asked)), entitlements, TrimSpace(asked))
  }

  /** The bundle answers as the online check would: the same decision, or none exactly where that is "unknown". */
  predicate Agrees(bundle: Option<Bundle>, online: Decision, asked: string) {
    match BundleDecision(bundle, asked)
    case Some(d) => d == online
    case None => online.reason == UnknownCapability
  }

  /**
   The pre-signed bundle agrees with the online check on a capability exactly unless the name was asked for
   with white space around it and is registered without: only the online check trims.
   */
  lemma BundleAgreesOnline(ps: seq<Policy>, appId: string, licenseId: Id, deviceId: Id, entitlements: seq<string>,
                           issuedAt: int, expiresAt: int, asked: string)
    requires UniqueKeys(ps) && TrimmedCapabilities(ps)
    ensures Agrees(BundleFor(ps, appId, licenseId, deviceId, entitlements, issuedAt, expiresAt),
                   OnlineDecision(ps, appId, entitlements, asked), asked)
            <==> IsTrimmed(asked) || Registered(ps, appId, TrimSpace(asked)).None?
  {
    hide BundleFor, BundleDecision, TrimSpace, Decide;
    BundleIsSearch(ps, appId, licenseId, deviceId, entitlements, issuedAt, expiresAt, asked);
    DecisionIsSound(Registered(ps, appId, TrimSpace(asked)), entitlements, TrimSpace(asked));
    if !IsTrimmed(asked) {
      UntrimmedUnknown(ps, appId, asked);
    }
  }

  lemma UntrimmedUnknown(ps: seq<Policy>, appId: string, asked: string)
    requires TrimmedCapabilities(ps) && !IsTrimmed(asked)
    ensures Registered(ps, appId, asked).None?
  {
    var i := PolicyFor(ps, appId, asked);
    assert forall k | 0 <= k < |ps| :: ps[k] in ps;
  }
}
