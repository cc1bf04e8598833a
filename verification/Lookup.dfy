/** First-match searches over the stored lists: the index of the match, or the length of the list. */
module Lookup {
  import opened Types

  function First<T>(s: seq<T>, p: T -> bool): (i: nat)
    ensures i <= |s|
    ensures i < |s| ==> p(s[i])
    ensures forall k | 0 <= k < i :: !p(s[k])
  {
    if s == [] || p(s[0]) then 0 else 1 + First(s[1..], p)
  }

  /** What the search finds. */
  function Found<T>(s: seq<T>, p: T -> bool): Option<T> {
    if First(s, p) < |s| then Some(s[First(s, p)]) else None
  }

  ghost function Filter<T>(s: seq<T>, q: T -> bool): seq<T> {
    if s == [] then [] else (if q(s[0]) then [s[0]] else []) + Filter(s[1..], q)
  }

  lemma FoundCons<T>(x: T, s: seq<T>, p: T -> bool)
    ensures Found([x] + s, p) == if p(x) then Some(x) else Found(s, p)
  {
    assert ([x] + s)[1..] == s;
  }

  /** Leaving out what a search cannot find does not change what it finds. */
  lemma {:induction false} FoundFiltered<T>(s: seq<T>, p: T -> bool, q: T -> bool)
    requires forall x | x in s && p(x) :: q(x)
    ensures Found(Filter(s, q), p) == Found(s, p)
  {
    hide First, Found;
    if s != [] {
      assert s == [s[0]] + s[1..];
      FoundFiltered(s[1..], p, q);
      FoundCons(s[0], s[1..], p);
      FoundCons(s[0], Filter(s[1..], q), p);
      assert s[0] in s;
      assert [] + Filter(s[1..], q) == Filter(s[1..], q);
    }
  }

  lemma {:induction false} FilterSnoc<T>(s: seq<T>, x: T, q: T -> bool)
    ensures Filter(s + [x], q) == Filter(s, q) + if q(x) then [x] else []
  {
    if s == [] {
      assert s + [x] == [x];
    } else {
      FilterSnoc(s[1..], x, q);
      assert (s + [x])[1..] == s[1..] + [x];
    }
  }

  lemma {:induction false} FilteredPass<T>(s: seq<T>, q: T -> bool)
    ensures forall x | x in Filter(s, q) :: q(x) && x in s
  {
    if s != [] {
      FilteredPass(s[1..], q);
    }
  }

  method FindFirst<T>(s: seq<T>, p: T -> bool) returns (i: nat)
    ensures i == First(s, p)
  {
    i := 0;
    while i < |s|
      invariant i <= |s|
      invariant First(s, p) == i + First(s[i..], p)
    {
      assert s[i..][0] == s[i] && s[i..][1..] == s[i + 1..];
      if p(s[i]) {
        return;
      }
      i := i + 1;
    }
  }

  function AppNamed(apps: seq<App>, name: string): (i: nat)
    ensures i <= |apps|
    ensures i < |apps| ==> apps[i].appKey == name || apps[i].id == name
    ensures forall k | 0 <= k < i :: apps[k].appKey != name && apps[k].id != name
  {
    First(apps, (a: App) => a.appKey == name || a.id == name)
  }

  function LicenseById(licenses: seq<License>, id: Id): (i: nat)
    ensures i <= |licenses|
    ensures i < |licenses| ==> licenses[i].id == id
    ensures forall k | 0 <= k < i :: licenses[k].id != id
  {
    First(licenses, (l: License) => l.id == id)
  }

  function LicenseByKey(licenses: seq<License>, key: string): (i: nat)
    ensures i <= |licenses|
    ensures i < |licenses| ==> licenses[i].keyHash == Sha256(key)
    ensures forall k | 0 <= k < i :: licenses[k].keyHash != Sha256(key)
  {
    First(licenses, (l: License) => l.keyHash == Sha256(key))
  }

  function DeviceById(devices: seq<Device>, id: Id): (i: nat)
    ensures i <= |devices|
    ensures i < |devices| ==> devices[i].id == id
    ensures forall k | 0 <= k < i :: devices[k].id != id
  {
    First(devices, (d: Device) => d.id == id)
  }

  function DeviceByFingerprint(devices: seq<Device>, fingerprint: Hash): (i: nat)
    ensures i <= |devices|
    ensures i < |devices| ==> devices[i].fingerprint == fingerprint
    ensures forall k | 0 <= k < i :: devices[k].fingerprint != fingerprint
  {
    First(devices, (d: Device) => d.fingerprint == fingerprint)
  }

  function DeviceByInstall(devices: seq<Device>, installHash: Hash): (i: nat)
    ensures i <= |devices|
    ensures i < |devices| ==> devices[i].installHash == installHash
    ensures forall k | 0 <= k < i :: devices[k].installHash != installHash
  {
    First(devices, (d: Device) => d.installHash == installHash)
  }

  function ActivationFor(activations: seq<Activation>, licenseId: Id, deviceId: Id): (i: nat)
    ensures i <= |activations|
    ensures i < |activations| ==> activations[i].licenseId == licenseId && activations[i].deviceId == deviceId
    ensures forall k | 0 <= k < i :: !(activations[k].licenseId == licenseId && activations[k].deviceId == deviceId)
  {
    First(activations, (a: Activation) => a.licenseId == licenseId && a.deviceId == deviceId)
  }

  function RiskEventById(events: seq<RiskEvent>, id: Id): (i: nat)
    ensures i <= |events|
    ensures i < |events| ==> events[i].id == id
    ensures forall k | 0 <= k < i :: events[k].id != id
  {
    First(events, (e: RiskEvent) => e.id == id)
  }

  function PolicyFor(policies: seq<Policy>, appId: string, capability: string): (i: nat)
    ensures i <= |policies|
    ensures i < |policies| ==> policies[i].appId == appId && policies[i].capability == capability
    ensures forall k | 0 <= k < i :: !(policies[k].appId == appId && policies[k].capability == capability)
  {
    First(policies, (p: Policy) => p.appId == appId && p.capability == capability)
  }

  function ReleaseById(releases: seq<Release>, appId: string, id: Id): (i: nat)
    ensures i <= |releases|
    ensures i < |releases| ==> releases[i].appId == appId && releases[i].id == id
    ensures forall k | 0 <= k < i :: !(releases[k].appId == appId && releases[k].id == id)
  {
    First(releases, (r: Release) => r.appId == appId && r.id == id)
  }
}
