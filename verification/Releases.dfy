/** Which release a client is on, which one is the latest, and whether an update is offered. */
module Releases {
  import opened Types
  import opened Lookup
  import opened Sorting
  import Versions

  predicate Matches(r: Release, appId: string, platform: string, version: string) {
    r.appId == appId && r.platform == platform && r.version == version
  }

  function FirstBlocked(releases: seq<Release>, appId: string, platform: string, version: string): (i: nat)
    ensures i <= |releases|
    ensures i < |releases| ==> Matches(releases[i], appId, platform, version) && releases[i].status == "blocked"
    ensures forall k | 0 <= k < i :: !(Matches(releases[k], appId, platform, version) && releases[k].status == "blocked")
  {
    First(releases, (r: Release) => Matches(r, appId, platform, version) && r.status == "blocked")
  }

  function FirstRow(releases: seq<Release>, appId: string, platform: string, version: string): (i: nat)
    ensures i <= |releases|
    ensures i < |releases| ==> Matches(releases[i], appId, platform, version)
    ensures forall k | 0 <= k < i :: !Matches(releases[k], appId, platform, version)
  {
    First(releases, (r: Release) => Matches(r, appId, platform, version))
  }

  /** The index of the first blocked row of a version or, without one, of its first row. */
  function FindRelease(releases: seq<Release>, appId: string, platform: string, version: string): (i: nat)
    ensures i <= |releases|
  {
    var b := FirstBlocked(releases, appId, platform, version);
    if b < |releases| then b else FirstRow(releases, appId, platform, version)
  }

  function ReleaseAt(releases: seq<Release>, i: nat): Option<Release> {
    if i < |releases| then Some(releases[i]) else None
  }

  method FindReleaseLocked(releases: seq<Release>, appId: string, platform: string, version: string) returns (i: nat)
    ensures i == FindRelease(releases, appId, platform, version)
  {
    var fallback: nat := |releases|;
    i := 0;
    while i < |releases|
      invariant i <= |releases| && fallback <= |releases|
      invariant forall k | 0 <= k < i ::
                  !(Matches(releases[k], appId, platform, version) && releases[k].status == "blocked")
      invariant fallback == |releases| ==> forall k | 0 <= k < i :: !Matches(releases[k], appId, platform, version)
      invariant fallback < |releases| ==>
                  && fallback < i && Matches(releases[fallback], appId, platform, version)
                  && forall k | 0 <= k < fallback :: !Matches(releases[k], appId, platform, version)
    {
      if releases[i].appId == appId && releases[i].platform == platform && releases[i].version == version {
        if releases[i].status == "blocked" {
          return;
        }
        if fallback == |releases| {
          fallback := i;
        }
      }
      i := i + 1;
    }
    i := fallback;
  }

  /** One blocked row is enough, wherever it stands and however many other rows the version has. */
  lemma BlockedRowWins(releases: seq<Release>, appId: string, platform: string, version: string)
    ensures var i := FindRelease(releases, appId, platform, version);
            && (i < |releases| ==> Matches(releases[i], appId, platform, version))
            && (i == |releases| <==> forall r | r in releases :: !Matches(r, appId, platform, version))
            && ((exists r | r in releases :: Matches(r, appId, platform, version) && r.status == "blocked")
                <==> i < |releases| && releases[i].status == "blocked")
  {
  }

  /** The row, and its fields in full. */
  predicate IsRow(r: Release, appId: string, platform: string, version: string) {
    r.appId == appId && r.platform == platform && r.version == version
  }

  /** The row that decides for a version: the first blocked one; without one the first; none if it has no row. */
  lemma FindTells(releases: seq<Release>, appId: string, platform: string, version: string)
    ensures var i := FindRelease(releases, appId, platform, version);
            var blocked := exists r | r in releases :: IsRow(r, appId, platform, version) && r.status == "blocked";
            && (i < |releases| ==> IsRow(releases[i], appId, platform, version))
            && (i < |releases| && blocked ==> releases[i].status == "blocked")
            && (i == |releases| ==> forall r | r in releases :: !IsRow(r, appId, platform, version))
            && (forall k | 0 <= k < i ::
                  !(IsRow(releases[k], appId, platform, version) && (!blocked || releases[k].status == "blocked")))
  {
    BlockedRowWins(releases, appId, platform, version);
    forall k | 0 <= k < |releases| ensures releases[k] in releases {
    }
  }

  // ----- the latest release -----

  predicate Newer(a: Release, b: Release) {
    if a.buildNumber == b.buildNumber then a.createdAt > b.createdAt else a.buildNumber > b.buildNumber
  }

  predicate Eligible(r: Release, appId: string, platform: string) {
    r.appId == appId && r.platform == platform && r.status == "active"
  }

  function Candidates(releases: seq<Release>, appId: string, platform: string): (c: seq<Release>)
    ensures forall r :: r in c <==> r in releases && Eligible(r, appId, platform)
  {
    if releases == [] then []
    else
      var n := |releases| - 1;
      Candidates(releases[..n], appId, platform)
      + (if Eligible(releases[n], appId, platform) then [releases[n]] else [])
  }

  function LatestRelease(releases: seq<Release>, appId: string, platform: string): Option<Release> {
    var sorted := Sort(Candidates(releases, appId, platform), Newer);
    if sorted == [] then None else Some(sorted[0])
  }

  method LatestReleaseLocked(releases: seq<Release>, appId: string, platform: string) returns (latest: Option<Release>)
    ensures latest == LatestRelease(releases, appId, platform)
  {
    var candidates := [];
    for i := 0 to |releases|
      invariant candidates == Candidates(releases[..i], appId, platform)
    {
      assert releases[..i + 1][..i] == releases[..i];
      if releases[i].appId == appId && releases[i].platform == platform && releases[i].status == "active" {
        candidates := candidates + [releases[i]];
      }
    }
    assert releases[..|releases|] == releases;
    if |candidates| == 0 {
      return None;
    }
    return Some(Sort(candidates, Newer)[0]);
  }

  lemma NewerIsOrder()
    ensures StrictWeak(Newer)
  {
  }

  /** The latest release is an active one of the app and platform that no other such release is newer than. */
  lemma LatestIsMaximal(releases: seq<Release>, appId: string, platform: string)
    ensures var latest := LatestRelease(releases, appId, platform);
            && (latest.None? <==> forall r | r in releases :: !Eligible(r, appId, platform))
            && (latest.Some? ==>
                  && latest.value in releases && Eligible(latest.value, appId, platform)
                  && forall r | r in releases && Eligible(r, appId, platform) :: !Newer(r, latest.value))
  {
    var candidates := Candidates(releases, appId, platform);
    var sorted := Sort(candidates, Newer);
    NewerIsOrder();
    SortOrdered(candidates, Newer);
    SameItems(candidates, Newer);
    if candidates != [] {
      assert sorted[0] in sorted;
      forall r | r in releases && Eligible(r, appId, platform) ensures !Newer(r, sorted[0]) {
        assert r in sorted;
        var k :| 0 <= k < |sorted| && sorted[k] == r;
        assert Newer(r, r) == false;
      }
    } else {
      forall r | r in releases ensures !Eligible(r, appId, platform) {
        assert r !in candidates;
      }
    }
  }

  /** An active release of the application and platform, in full. */
  predicate IsActive(r: Release, appId: string, platform: string) {
    r.appId == appId && r.platform == platform && r.status == "active"
  }

  /** The latest is an active one with the highest build number and, among those, created last. */
  lemma LatestTells(releases: seq<Release>, appId: string, platform: string)
    ensures var latest := LatestRelease(releases, appId, platform);
            && (latest.None? <==> forall r | r in releases :: !IsActive(r, appId, platform))
            && (latest.Some? ==>
                  && latest.value in releases && IsActive(latest.value, appId, platform)
                  && forall r | r in releases && IsActive(r, appId, platform) ::
                       || r.buildNumber < latest.value.buildNumber
                       || (r.buildNumber == latest.value.buildNumber && r.createdAt <= latest.value.createdAt))
  {
    hide LatestRelease;
    LatestIsMaximal(releases, appId, platform);
  }

  /** However a sort breaks ties, its choice has the same build number and creation time. */
  lemma LatestUpToTies(candidates: seq<Release>, other: seq<Release>)
    requires multiset(other) == multiset(candidates) && candidates != [] && Ordered(other, Newer)
    ensures other != []
    ensures var a, b := Sort(candidates, Newer)[0], other[0];
            a.buildNumber == b.buildNumber && a.createdAt == b.createdAt
  {
    var sorted := Sort(candidates, Newer);
    NewerIsOrder();
    SortOrdered(candidates, Newer);
    assert |multiset(other)| == |multiset(candidates)|;
    assert sorted[0] in multiset(other) && other[0] in multiset(sorted);
    var i :| 0 <= i < |other| && other[i] == sorted[0];
    var j :| 0 <= j < |sorted| && sorted[j] == other[0];
  }

  // ----- the update offer -----

  function ClampPercent(value: int): (r: int)
    ensures 0 <= r <= 100
  {
    if value < 0 then 0 else if value > 100 then 100 else value
  }

  /** `bucket` is the checksum of the app, platform, release and device, modulo 100. */
  predicate InRollout(bucket: int, deviceKnown: bool, rolloutPercent: int) {
    var percent := ClampPercent(rolloutPercent);
    percent >= 100 || (percent > 0 && deviceKnown && bucket < percent)
  }

  predicate BelowMinimum(releases: seq<Release>, appId: string, platform: string, current: string, minimum: string) {
    if minimum == "" then false
    else
      var c := ReleaseAt(releases, FindRelease(releases, appId, platform, current));
      var m := ReleaseAt(releases, FindRelease(releases, appId, platform, minimum));
      if c.Some? && m.Some? && c.value.buildNumber != 0 && m.value.buildNumber != 0
      then c.value.buildNumber < m.value.buildNumber
      else Versions.Compare(current, minimum) < 0
  }

  datatype Update = Update(required: bool, latestVersion: string, downloadUrl: string, packageHash: string)

  /** `bucketOf` gives a device's bucket for a release of this app and platform. */
  function UpdateInfo(releases: seq<Release>, appId: string, platform: string, current: string,
                      device: Option<Id>, bucketOf: (Id, Id) -> int): Option<Update>
  {
    if current == "" then None
    else
      var latest := LatestRelease(releases, appId, platform);
      if latest.None? || latest.value.version == "" || latest.value.version == current then None
      else
        var l := latest.value;
        var required := l.mandatory || BelowMinimum(releases, appId, platform, current, l.minSupportedVersion);
        var bucket := if device.Some? then bucketOf(l.id, device.value) else 0;
        if !required && !InRollout(bucket, device.Some?, l.rolloutPercent) then None
        else Some(Update(required, l.version, l.downloadUrl, l.packageHash))
  }

  /** What an offer says: the latest release's version, address and hash, and whether it must be taken. */
  lemma OfferTells(releases: seq<Release>, appId: string, platform: string, current: string, device: Option<Id>,
                   bucketOf: (Id, Id) -> int)
    requires UpdateInfo(releases, appId, platform, current, device, bucketOf).Some?
    ensures var offer, latest := UpdateInfo(releases, appId, platform, current, device, bucketOf).value,
                                 LatestRelease(releases, appId, platform);
            && latest.Some? && offer.latestVersion == latest.value.version != current
            && offer.downloadUrl == latest.value.downloadUrl && offer.packageHash == latest.value.packageHash
            && (offer.required <==> latest.value.mandatory
                                    || BelowMinimum(releases, appId, platform, current, latest.value.minSupportedVersion))
  {
    hide LatestRelease, BelowMinimum;
  }

  /** The build number of the row that decides for a version; zero without one. */
  function BuildOf(releases: seq<Release>, appId: string, platform: string, version: string): int {
    var i := FindRelease(releases, appId, platform, version);
    if i < |releases| then releases[i].buildNumber else 0
  }

  /** A version is below a minimum by its build number where both have one, and by its parts where one has not. */
  lemma MinimumTells(releases: seq<Release>, appId: string, platform: string, current: string, minimum: string)
    ensures BelowMinimum(releases, appId, platform, current, minimum) <==>
              && minimum != ""
              && var a, b := BuildOf(releases, appId, platform, current), BuildOf(releases, appId, platform, minimum);
                 if a != 0 && b != 0 then a < b
                 else exists k: nat :: Versions.BelowAt(Versions.Parse(current), Versions.Parse(minimum), k)
  {
    hide FindRelease, Versions.Parse;
    Versions.CompareMeaning(Versions.Parse(current), Versions.Parse(minimum));
  }

  // ----- moving the rollout percentage -----

  /** A release as an admin leaves it who sets the rollout percentage of the release with the given id. */
  function Patch(r: Release, id: Id, percent: int): Release {
    if r.id == id then r.(rolloutPercent := percent) else r
  }

  function SetRollout(releases: seq<Release>, id: Id, percent: int): (r: seq<Release>)
    ensures |r| == |releases|
  {
    if releases == [] then []
    else
      var n := |releases| - 1;
      SetRollout(releases[..n], id, percent) + [Patch(releases[n], id, percent)]
  }

  /** Nothing that selects a release looks at the percentage. */
  lemma PatchKeeps(r: Release, s: Release, id: Id, percent: int)
    ensures forall a, p, v :: Matches(Patch(r, id, percent), a, p, v) == Matches(r, a, p, v)
    ensures forall a, p :: Eligible(Patch(r, id, percent), a, p) == Eligible(r, a, p)
    ensures Newer(Patch(r, id, percent), Patch(s, id, percent)) == Newer(r, s)
    ensures Patch(r, id, percent).status == r.status && Patch(r, id, percent).buildNumber == r.buildNumber
  {
  }

  lemma {:induction false} SetAt(releases: seq<Release>, id: Id, percent: int, k: nat)
    requires k < |releases|
    ensures SetRollout(releases, id, percent)[k] == Patch(releases[k], id, percent)
  {
    hide Patch;
    if k < |releases| - 1 {
      SetAt(releases[..|releases| - 1], id, percent, k);
    }
  }

  lemma {:induction false} SetCons(x: Release, s: seq<Release>, id: Id, percent: int)
    ensures SetRollout([x] + s, id, percent) == [Patch(x, id, percent)] + SetRollout(s, id, percent)
    decreases |s|
  {
    hide Patch;
    var all := [x] + s;
    if s == [] {
      assert all[..0] == [];
    } else {
      var n := |s| - 1;
      assert all[..n + 1] == [x] + s[..n];
      SetCons(x, s[..n], id, percent);
    }
  }

  lemma SetFind(releases: seq<Release>, id: Id, percent: int, appId: string, platform: string, version: string)
    ensures FindRelease(SetRollout(releases, id, percent), appId, platform, version)
            == FindRelease(releases, appId, platform, version)
  {
    hide Patch, Matches, SetRollout, FirstBlocked, FirstRow;
    var patched := SetRollout(releases, id, percent);
    forall k | 0 <= k < |releases|
      ensures Matches(patched[k], appId, platform, version) == Matches(releases[k], appId, platform, version)
      ensures patched[k].status == releases[k].status
    {
      SetAt(releases, id, percent, k);
      PatchKeeps(releases[k], releases[k], id, percent);
    }
    SameFirstBlocked(releases, patched, appId, platform, version);
  }

  lemma SameFirstBlocked(a: seq<Release>, b: seq<Release>, appId: string, platform: string, version: string)
    requires |a| == |b|
    requires forall k | 0 <= k < |a| ::
               Matches(b[k], appId, platform, version) == Matches(a[k], appId, platform, version)
               && b[k].status == a[k].status
    ensures FirstBlocked(a, appId, platform, version) == FirstBlocked(b, appId, platform, version)
    ensures FirstRow(a, appId, platform, version) == FirstRow(b, appId, platform, version)
  {
    hide Matches, FirstBlocked, FirstRow;
    var i, j := FirstBlocked(a, appId, platform, version), FirstBlocked(b, appId, platform, version);
    var k, l := FirstRow(a, appId, platform, version), FirstRow(b, appId, platform, version);
  }

  lemma {:induction false} SetCandidates(releases: seq<Release>, id: Id, percent: int, appId: string, platform: string)
    ensures Candidates(SetRollout(releases, id, percent), appId, platform)
            == SetRollout(Candidates(releases, appId, platform), id, percent)
  {
    hide Patch, Eligible;
    if releases == [] {
    } else {
      var n := |releases| - 1;
      var before := Candidates(releases[..n], appId, platform);
      SetCandidates(releases[..n], id, percent, appId, platform);
      PatchKeeps(releases[n], releases[n], id, percent);
      assert (before + [releases[n]])[..|before|] == before;
      assert before + [] == before;
    }
  }

  lemma {:induction false} SetInsert(x: Release, s: seq<Release>, id: Id, percent: int)
    ensures Insert(Patch(x, id, percent), SetRollout(s, id, percent), Newer)
            == SetRollout(Insert(x, s, Newer), id, percent)
  {
    hide Patch, SetRollout, Newer;
    if s == [] {
      SetCons(x, [], id, percent);
      assert [x] + [] == [x];
      assert SetRollout([], id, percent) == [];
    } else {
      assert s == [s[0]] + s[1..];
      SetCons(s[0], s[1..], id, percent);
      PatchKeeps(x, s[0], id, percent);
      if Newer(x, s[0]) {
        SetCons(x, s, id, percent);
      } else {
        SetInsert(x, s[1..], id, percent);
        SetCons(s[0], Insert(x, s[1..], Newer), id, percent);
      }
    }
  }

  lemma {:induction false} SetSort(s: seq<Release>, id: Id, percent: int)
    ensures Sort(SetRollout(s, id, percent), Newer) == SetRollout(Sort(s, Newer), id, percent)
  {
    hide Patch, Insert, Newer;
    if s != [] {
      var n := |s| - 1;
      SetSort(s[..n], id, percent);
      assert SetRollout(s, id, percent)[..n] == SetRollout(s[..n], id, percent);
      SetInsert(s[n], Sort(s[..n], Newer), id, percent);
    }
  }

  /** Whatever percentages are set, the same release is selected. */
  lemma SelectionIgnoresRollout(releases: seq<Release>, id: Id, percent: int, appId: string, platform: string)
    ensures var latest := LatestRelease(releases, appId, platform);
            LatestRelease(SetRollout(releases, id, percent), appId, platform)
            == if latest.None? then None else Some(Patch(latest.value, id, percent))
  {
    hide Patch, Sort, SetRollout, Candidates;
    SetCandidates(releases, id, percent, appId, platform);
    SetSort(Candidates(releases, appId, platform), id, percent);
    var sorted := Sort(Candidates(releases, appId, platform), Newer);
    if sorted != [] {
      SetAt(sorted, id, percent, 0);
    }
  }

  /** ... and the same clients are below its minimum. */
  lemma MinimumIgnoresRollout(releases: seq<Release>, id: Id, percent: int, appId: string, platform: string,
                              current: string, minimum: string)
    ensures BelowMinimum(SetRollout(releases, id, percent), appId, platform, current, minimum)
            == BelowMinimum(releases, appId, platform, current, minimum)
  {
    hide Patch, SetRollout, FindRelease;
    SetFind(releases, id, percent, appId, platform, current);
    SetFind(releases, id, percent, appId, platform, minimum);
    forall version ensures var i := FindRelease(releases, appId, platform, version);
                           i < |releases| ==>
                             SetRollout(releases, id, percent)[i].buildNumber == releases[i].buildNumber
    {
      var i := FindRelease(releases, appId, platform, version);
      if i < |releases| {
        SetAt(releases, id, percent, i);
        PatchKeeps(releases[i], releases[i], id, percent);
      }
    }
  }

  /** An offer is made exactly when the selected release is another version, and required or rolled out to the device. */
  lemma OfferIff(releases: seq<Release>, appId: string, platform: string, current: string,
                 device: Option<Id>, bucketOf: (Id, Id) -> int)
    ensures UpdateInfo(releases, appId, platform, current, device, bucketOf).Some? <==>
            var latest := LatestRelease(releases, appId, platform);
            && current != "" && latest.Some? && latest.value.version !in {"", current}
            && (|| latest.value.mandatory
                || BelowMinimum(releases, appId, platform, current, latest.value.minSupportedVersion)
                || latest.value.rolloutPercent >= 100
                || (device.Some? && latest.value.rolloutPercent > 0
                    && bucketOf(latest.value.id, device.value) < latest.value.rolloutPercent))
  {
  }

  /** How many of the hundred buckets are offered something. */
  function Share(releases: seq<Release>, appId: string, platform: string, current: string, device: Id): set<int> {
    set b: int | 0 <= b < 100 && OfferedIn(releases, appId, platform, current, device, b) :: b
  }

  predicate OfferedIn(releases: seq<Release>, appId: string, platform: string, current: string, device: Id, bucket: int)
  {
    UpdateInfo(releases, appId, platform, current, Some(device), (_, _) => bucket).Some?
  }

  /**
   A rollout reaches the share of devices it names: an update that is not required is offered in exactly as many of
   the hundred buckets as the percentage, clamped, says, and one that is required in all of them.
   */
  lemma OfferShare(releases: seq<Release>, appId: string, platform: string, current: string, device: Id)
    requires var latest := LatestRelease(releases, appId, platform);
             current != "" && latest.Some? && latest.value.version !in {"", current}
    ensures var l := LatestRelease(releases, appId, platform).value;
            var required := l.mandatory || BelowMinimum(releases, appId, platform, current, l.minSupportedVersion);
            |Share(releases, appId, platform, current, device)|
            == if required then 100 else ClampPercent(l.rolloutPercent)
  {
    hide LatestRelease, BelowMinimum;
    var l := LatestRelease(releases, appId, platform).value;
    var required := l.mandatory || BelowMinimum(releases, appId, platform, current, l.minSupportedVersion);
    var n := if required then 100 else ClampPercent(l.rolloutPercent);
    forall b: int ensures b in Share(releases, appId, platform, current, device) <==> b in UpTo(n) {
      OfferedAt(releases, appId, platform, current, device, b);
    }
    assert Share(releases, appId, platform, current, device) == UpTo(n);
  }

  lemma OfferedAt(releases: seq<Release>, appId: string, platform: string, current: string, device: Id, bucket: int)
    requires var latest := LatestRelease(releases, appId, platform);
             current != "" && latest.Some? && latest.value.version !in {"", current}
    ensures var l := LatestRelease(releases, appId, platform).value;
            OfferedIn(releases, appId, platform, current, device, bucket)
            <==> || l.mandatory || BelowMinimum(releases, appId, platform, current, l.minSupportedVersion)
                 || ClampPercent(l.rolloutPercent) == 100
                 || (bucket < ClampPercent(l.rolloutPercent) && l.rolloutPercent > 0)
  {
    OfferIff(releases, appId, platform, current, Some(device), (_, _) => bucket);
  }

  function UpTo(n: nat): (s: set<int>)
    ensures |s| == n
    ensures forall b :: b in s <==> 0 <= b < n
  {
    if n == 0 then {} else UpTo(n - 1) + {n - 1}
  }
}
