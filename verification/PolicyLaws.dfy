/** What a batch of policies leaves registered, capability by capability. */
module PolicyLaws {
  import opened Types
  import opened Lookup
  import opened World
  import opened Policies
  import opened Text
  import Steps
  import Tokens

  /** A mode as it is written down: in lower case and trimmed, "block" where it is left out. */
  function ModeWritten(mode: string): string {
    if ToLower(TrimSpace(mode)) == "" then "block" else ToLower(TrimSpace(mode))
  }

  /** The policy an item asks for. */
  function PolicyAsked(appId: string, item: Policy, created: Time, now: Time): Policy {
    Policy(appId, TrimSpace(item.capability), TrimSpace(item.requiredEntitlement), ModeWritten(item.mode),
           TrimSpace(item.message), created, now)
  }

  /** The last place of x, or |names|. */
  function LastOf(names: seq<string>, x: string): (j: nat)
    ensures j <= |names|
    ensures j < |names| ==> names[j] == x
    ensures forall i | 0 <= i < |names| && (i > j || j == |names|) :: names[i] != x
  {
    if names == [] then 0
    else
      var n := |names| - 1;
      if names[n] == x then n
      else
        var j := LastOf(names[..n], x);
        if j == n then |names| else j
  }

  /** The capabilities the items name. */
  function Named(items: seq<Policy>): (r: seq<string>)
    ensures |r| == |items|
  {
    seq(|items|, i requires 0 <= i < |items| => TrimSpace(items[i].capability))
  }

  /** The last item that names the capability, or |items|. */
  function LastNaming(items: seq<Policy>, capability: string): nat {
    LastOf(Named(items), capability)
  }

  lemma LettersOnly()
    ensures forall c: char | 'a' <= c <= 'z' :: !IsSpace(c) && LowerChar(c) == c
  {
  }

  lemma LowerKept(s: string)
    requires forall i | 0 <= i < |s| :: 'a' <= s[i] <= 'z'
    ensures ToLower(s) == s && TrimSpace(s) == s
  {
    LettersOnly();
  }

  lemma ModesStand(mode: string)
    requires ValidMode(mode)
    ensures NormalizeMode(mode) == mode && mode != ""
  {
    hide ToLower, TrimSpace;
    assert forall i | 0 <= i < |mode| :: 'a' <= mode[i] <= 'z';
    LowerKept(mode);
  }

  lemma {:induction false} NormalizedAt(appId: string, items: seq<Policy>, now: Time, j: nat)
    requires Steps.NormalizeAll(appId, items, now).Some? && j < |items|
    ensures var batch := Steps.NormalizeAll(appId, items, now).value;
            |batch| == |items| && NormalizePolicy(appId, items[j], now) == Some(batch[j])
  {
    hide NormalizePolicy;
    var n := |items| - 1;
    BatchLength(appId, items[..n], now);
    if j < n {
      NormalizedAt(appId, items[..n], now, j);
    }
  }

  lemma {:induction false} BatchLength(appId: string, items: seq<Policy>, now: Time)
    ensures var batch := Steps.NormalizeAll(appId, items, now);
            batch.Some? ==> |batch.value| == |items|
  {
    hide NormalizePolicy;
    if items != [] {
      BatchLength(appId, items[..|items| - 1], now);
    }
  }

  lemma ItemNormalized(appId: string, item: Policy, now: Time, p: Policy)
    requires NormalizePolicy(appId, item, now) == Some(p)
    ensures p == PolicyAsked(appId, item, now, now)
    ensures KeyOf(p) == (appId, TrimSpace(item.capability))
    ensures forall created | created != ZERO_TIME :: Stored(p, created) == PolicyAsked(appId, item, created, now)
  {
    hide TrimSpace, ToLower;
    ModesStand(p.mode);
  }

  lemma RegisteredIsMap(ps: seq<Policy>, app: string, capability: string)
    ensures var m := AsMap(ps);
            Registered(ps, app, capability)
            == if (app, capability) in m then Some(m[(app, capability)]) else None
  {
  }

  lemma BatchOfItems(appId: string, items: seq<Policy>, now: Time, j: nat)
    requires Steps.NormalizeAll(appId, items, now).Some? && j < |items|
    ensures var batch := Steps.NormalizeAll(appId, items, now).value;
            && |batch| == |items|
            && KeyOf(batch[j]) == (appId, TrimSpace(items[j].capability))
            && batch[j] == PolicyAsked(appId, items[j], now, now)
  {
    hide NormalizePolicy, TrimSpace, PolicyAsked, Steps.NormalizeAll;
    NormalizedAt(appId, items, now, j);
    ItemNormalized(appId, items[j], now, Steps.NormalizeAll(appId, items, now).value[j]);
  }

  lemma SameLast(appId: string, items: seq<Policy>, now: Time, app: string, capability: string)
    requires Steps.NormalizeAll(appId, items, now).Some?
    ensures var batch, j := Steps.NormalizeAll(appId, items, now).value, LastNaming(items, capability);
            && |batch| == |items|
            && LastFor(batch, (app, capability)) == if app == appId then j else |batch|
  {
    hide TrimSpace, KeyOf, PolicyAsked, Steps.NormalizeAll, LastOf, LastFor;
    BatchLength(appId, items, now);
    var batch := Steps.NormalizeAll(appId, items, now).value;
    var names := Named(items);
    forall j | 0 <= j < |items| ensures KeyOf(batch[j]) == (appId, names[j]) {
      BatchOfItems(appId, items, now, j);
    }
    var l, j := LastFor(batch, (app, capability)), LastOf(names, capability);
    assert l < |batch| ==> names[l] == capability && app == appId;
    assert j < |names| && app == appId ==> KeyOf(batch[j]) == (app, capability);
  }

  lemma BatchCreated(appId: string, items: seq<Policy>, now: Time)
    requires Steps.NormalizeAll(appId, items, now).Some?
    ensures var batch := Steps.NormalizeAll(appId, items, now).value;
            forall j | 0 <= j < |batch| :: batch[j].createdAt == batch[j].updatedAt == now
  {
    hide TrimSpace, KeyOf, Steps.NormalizeAll, ModeWritten;
    BatchLength(appId, items, now);
    var batch := Steps.NormalizeAll(appId, items, now).value;
    forall j | 0 <= j < |batch| ensures batch[j].createdAt == batch[j].updatedAt == now {
      BatchOfItems(appId, items, now, j);
    }
  }

  /** What a batch leaves registered, in the list. */
  lemma ListRegisters(ps: seq<Policy>, appId: string, items: seq<Policy>, now: Time, app: string, capability: string)
    requires Steps.NormalizeAll(appId, items, now).Some? && now != ZERO_TIME
    ensures var j, before := LastNaming(items, capability), Registered(ps, app, capability);
            var after := Registered(UpsertAll(ps, Steps.NormalizeAll(appId, items, now).value), app, capability);
            if app == appId && j < |items| then after == Some(PolicyAsked(appId, items[j], Created(before, now), now))
            else after == before
  {
    hide NormalizePolicy, Stored, UpsertAll, TrimSpace, KeyOf, PolicyAsked, CreatedAt, Steps.NormalizeAll, AsMap,
      LastOf, LastFor, FirstFor, Birth, OverrideAll, Registered;
    var batch := Steps.NormalizeAll(appId, items, now).value;
    var k, j := (app, capability), LastNaming(items, capability);
    SameLast(appId, items, now, app, capability);
    BatchCreated(appId, items, now);
    UpsertAllRefines(ps, batch);
    BatchMeaning(AsMap(ps), batch, k);
    RegisteredIsMap(ps, app, capability);
    RegisteredIsMap(UpsertAll(ps, batch), app, capability);
    if app == appId && j < |items| {
      BirthTold(AsMap(ps), batch, k, now);
      NormalizedAt(appId, items, now, j);
      ItemNormalized(appId, items[j], now, batch[j]);
    }
  }

  /**
   An upsert registers the policy with its mode as written down and the creation time stored before or, for a new
   one, its own; a time never set is that of the update. Every other capability is registered as it was.
   */
  lemma UpsertTells(ps: seq<Policy>, p: Policy, app: string, capability: string)
    ensures var before, after := Registered(ps, app, capability), Registered(Upsert(ps, p), app, capability);
            if app == p.appId && capability == p.capability then
              var created := if before.Some? then before.value.createdAt else p.createdAt;
              after == Some(Policy(p.appId, p.capability, p.requiredEntitlement, ModeWritten(p.mode), p.message,
                                   if created == ZERO_TIME then p.updatedAt else created, p.updatedAt))
            else after == before
  {
    hide TrimSpace, ToLower;
    UpsertLookup(ps, p, app, capability);
    hide Upsert;
  }

  /** The creation time a policy has, where it has one. */
  function Created(before: Option<Policy>, now: Time): Time {
    if before.Some? && before.value.createdAt != ZERO_TIME then before.value.createdAt else now
  }

  /**
   After a batch, a capability it names is registered as its last item naming it says, with the creation time it had
   or else now; every other capability, of every application, is registered as it was.
   */
  lemma BatchRegisters(w: World, appId: string, items: seq<Policy>, admin: string, now: Time, app: string,
                       capability: string)
    requires Steps.UpsertPolicies(w, appId, items, admin, now).1 == Steps.Ok && Tokens.IsReading(now)
    ensures var j, before := LastNaming(items, capability), Registered(w.data.policies, app, capability);
            var after := Registered(Steps.UpsertPolicies(w, appId, items, admin, now).0.data.policies, app, capability);
            if app == appId && j < |items| then after == Some(PolicyAsked(appId, items[j], Created(before, now), now))
            else after == before
  {
    hide UpsertAll, TrimSpace, PolicyAsked, Steps.NormalizeAll, LastOf, Registered, AppNamed, Created;
    ListRegisters(w.data.policies, appId, items, now, app, capability);
  }

  lemma BirthTold(m: map<PolicyKey, Policy>, batch: seq<Policy>, k: PolicyKey, now: Time)
    requires FirstFor(batch, k) < |batch|
    requires forall j | 0 <= j < |batch| :: batch[j].createdAt == batch[j].updatedAt == now
    requires now != ZERO_TIME
    ensures Birth(m, batch, k) == if k in m && m[k].createdAt != ZERO_TIME then m[k].createdAt else now
    ensures Birth(m, batch, k) != ZERO_TIME
  {
  }

  // ----- the default policies -----

  /** The seven defaults: the capability, what it needs, and what happens without it. */
  const DEFAULTS := [
    ("automation.run", "visionflow.automation", "block"), ("automation.resume", "visionflow.automation", "block"),
    ("automation.batch", "visionflow.batch", "block"), ("script.execute", "visionflow.automation", "block"),
    ("export.video", "visionflow.export", "watermark"), ("plugin.install", "visionflow.plugin", "block"),
    ("update.skipMandatory", "visionflow.update", "block")]

  /** One policy for each, of the application, created now. */
  lemma DefaultsTold(appId: string, now: Time)
    ensures var ps := VisionFlowDefaults(appId, now);
            && |ps| == |DEFAULTS|
            && forall k | 0 <= k < |ps| ::
                 && (ps[k].capability, ps[k].requiredEntitlement, ps[k].mode) == DEFAULTS[k]
                 && ps[k].appId == appId && ps[k].createdAt == ps[k].updatedAt == now
  {
  }
}
