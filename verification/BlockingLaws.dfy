/** Over whole runs: what blocking a version is worth, for whom, and for how long. */
module BlockingLaws {
  import opened Types
  import opened Lookup
  import opened World
  import opened Invariants
  import opened Machine
  import opened Frames
  import opened Sorting
  import ActivationLaws
  import Challenges
  import FilingLaws
  import GrantLaws
  import IntegrityCheck
  import Policies
  import RateLimit
  import Releases
  import StepInvariants
  import Steps
  import Tokens
  import Verification
  import VerifyLaws
  import Versions

  // ----- what becomes of a release row -----

  /** What a row is filed under and found by never changes. */
  predicate SameRow(a: Release, b: Release) {
    b.id == a.id && b.appId == a.appId && b.platform == a.platform && b.version == a.version
  }

  /** A patch that names the row and gives it another status. */
  predicate Unblocks(c: Command, row: Release) {
    && c.PatchRelease? && c.appId == row.appId && c.releaseId == row.id
    && c.patch.status.Some? && c.patch.status.value != "blocked"
  }

  /** The row stands, with its status unless a patch that names it gives it another. */
  ghost predicate RowStands(w: World, w': World, c: Command, k: nat)
    requires k < |w.data.releases|
  {
    && k < |w'.data.releases| && SameRow(w.data.releases[k], w'.data.releases[k])
    && (w'.data.releases[k].status == w.data.releases[k].status
        || (c.PatchRelease? && c.appId == w.data.releases[k].appId && c.releaseId == w.data.releases[k].id
            && c.patch.status == Some(w'.data.releases[k].status)))
  }

  lemma CreatedRowsStand(w: World, appId: string, r: Release, validate: bool, admin: string, now: Time)
    ensures w.data.releases <= Steps.CreateRelease(w, appId, r, validate, admin, now).0.data.releases
  {
    hide Steps.MissingFields, AppNamed;
  }

  lemma FirstRowsStand(w: World, id: string, appKey: string, name: string, platform: string, version: string,
                       admin: string, now: Time)
    ensures w.data.releases <= Steps.CreateApp(w, id, appKey, name, platform, version, admin, now).0.data.releases
  {
    hide Steps.IsVisionFlow, Steps.FirstRelease, AppNamed, Policies.Seed, Policies.VisionFlowDefaults;
  }

  lemma PatchedRowsStand(w: World, appId: string, id: Id, p: Steps.ReleasePatch, admin: string, now: Time, k: nat)
    requires k < |w.data.releases|
    ensures RowStands(w, Steps.PatchRelease(w, appId, id, p, admin, now).0, PatchRelease(appId, id, p), k)
  {
    hide Steps.MissingFields;
  }

  lemma RowsStand(w: World, call: Call, k: nat)
    requires k < |w.data.releases|
    ensures RowStands(w, Step(w, call).0, call.command, k)
  {
    hide MayChange, Steps.PatchRelease, Steps.CreateRelease, Steps.CreateApp;
    match call.command
    case CreateRelease(appId, r, validate) => CreatedRowsStand(w, appId, r, validate, call.adminId, call.now);
    case CreateApp(id, appKey, name, platform, version) =>
      FirstRowsStand(w, id, appKey, name, platform, version, call.adminId, call.now);
    case PatchRelease(appId, id, p) => PatchedRowsStand(w, appId, id, p, call.adminId, call.now, k);
    case _ => UntouchedRowsStand(w, call, k);
  }

  lemma UntouchedRowsStand(w: World, call: Call, k: nat)
    requires !call.command.CreateRelease? && !call.command.CreateApp? && !call.command.PatchRelease?
    requires k < |w.data.releases|
    ensures RowStands(w, Step(w, call).0, call.command, k)
  {
    hide Step;
    StepFrame(w, call);
  }

  lemma {:induction false} StaysBlocked(r: Run, m: nat, n: nat, k: nat)
    requires IsRun(r) && m <= n < |r.states| && k < |r.states[m].data.releases|
    requires r.states[m].data.releases[k].status == "blocked"
    requires forall i | m <= i < n :: !Unblocks(r.calls[i].command, r.states[m].data.releases[k])
    ensures k < |r.states[n].data.releases| && r.states[n].data.releases[k].status == "blocked"
    ensures SameRow(r.states[m].data.releases[k], r.states[n].data.releases[k])
    decreases n
  {
    hide Step;
    if m < n {
      StaysBlocked(r, m, n - 1, k);
      assert Stepped(r, n - 1);
      RowsStand(r.states[n - 1], r.calls[n - 1], k);
    }
  }

  // ----- who is refused -----

  /** An activate or verify request that reports the row's version, for the application whose key it is filed under. */
  predicate Reports(w: World, req: Verification.Request, row: Release) {
    var app := AppNamed(w.data.apps, req.appId);
    && app < |w.data.apps| && w.data.apps[app].appKey == row.appId
    && req.platform == row.platform && req.integrity.appVersion == row.version && row.version != ""
  }

  /** A heartbeat that does. */
  predicate BeatReports(w: World, req: Steps.HeartbeatRequest, row: Release) {
    && req.token.appId == row.appId && Steps.PlatformOf(w, req) == row.platform
    && Steps.Evidence(req).Some? && Steps.Evidence(req).value.appVersion == row.version && row.version != ""
  }

  lemma BlockedRowRefuses(d: Data, row: Release, i: Integrity)
    requires row in d.releases && row.status == "blocked" && row.version == i.appVersion && i.appVersion != ""
    ensures IntegrityCheck.Refused(Verification.ReportedRelease(d, row.appId, row.platform, i), i)
  {
    hide Releases.FindRelease, IntegrityCheck.Differs, IntegrityCheck.Misses, IntegrityCheck.BusinessStatusFailed,
      IntegrityCheck.DbStatusFailed, IntegrityCheck.ExpectedManifest;
    Releases.BlockedRowWins(d.releases, row.appId, row.platform, row.version);
  }

  lemma TouchKeepsPlatform(w: World, req: Steps.HeartbeatRequest, now: Time)
    ensures var w2 := Steps.TouchDevice(Steps.TouchActivation(w, req.token, now), req.token.deviceId, now);
            Steps.PlatformOf(w2, req) == Steps.PlatformOf(w, req) && w2.data.releases == w.data.releases
  {
    hide Steps.TouchActivation;
    var a, c, id := w.data.devices, req.token, req.token.deviceId;
    Touched(w, c, id, now);
    var b := Steps.TouchDevice(Steps.TouchActivation(w, c, now), id, now).data.devices;
    assert |b| == |a| && forall k | 0 <= k < |a| :: b[k].id == a[k].id && b[k].platform == a[k].platform;
    assert DeviceById(b, id) == DeviceById(a, id);
  }

  lemma BeatRefused(w: World, req: Steps.HeartbeatRequest, now: Time, row: Release)
    requires row in w.data.releases && row.status == "blocked" && BeatReports(w, req, row)
    ensures Steps.Heartbeat(w, req, now).1 != Steps.Ok
  {
    hide Steps.Evidence, Steps.WrongInstall, Steps.TokenGate, Steps.ExamineBeat, Steps.TouchActivation,
      Steps.TouchDevice, Verification.ReportedRelease, IntegrityCheck.Refused, IntegrityCheck.Denies,
      IntegrityCheck.Signals, Steps.PlatformOf;
    var w2 := Steps.TouchDevice(Steps.TouchActivation(w, req.token, now), req.token.deviceId, now);
    TouchKeepsPlatform(w, req, now);
    var i := Steps.Evidence(req).value;
    BlockedRowRefuses(w2.data, row, i);
    IntegrityCheck.DeniedIff(Verification.ReportedRelease(w2.data, row.appId, row.platform, i), i);
  }

  /**
   While a row is blocked, and it is until a patch names it and says otherwise, no request that reports its version
   for the application whose key it is filed under is granted, and no heartbeat that does is accepted.
   */
  lemma BlockedUntilPatched(r: Run, m: nat, n: nat, k: nat)
    requires IsRun(r) && Valid(r.states[0]) && m <= n < |r.calls| && k < |r.states[m].data.releases|
    requires r.states[m].data.releases[k].status == "blocked"
    requires forall i | m <= i < n :: !Unblocks(r.calls[i].command, r.states[m].data.releases[k])
    ensures var w, c, row := r.states[n], r.calls[n].command, r.states[m].data.releases[k];
            && (c.Verify? && Reports(w, c.request, row) ==> r.answers[n].Verified? && !r.answers[n].reply.Granted?)
            && (c.Heartbeat? && BeatReports(w, c.beat, row) ==> r.answers[n].Done? && r.answers[n].status != Steps.Ok)
  {
    hide Valid, Unblocks, GrantLaws.ConsumedChallenge, GrantLaws.ClaimsDevice, IntegrityCheck.Refused, Steps.Heartbeat,
      Verification.Verify;
    StaysBlocked(r, m, n, k);
    var w, call, row := r.states[n], r.calls[n], r.states[n].data.releases[k];
    assert Stepped(r, n);
    if call.command.Verify? && Reports(w, call.command.request, row) {
      hide Step;
      ActivationLaws.StepAnswers(w, call);
      if r.answers[n].reply.Granted? {
        GrantLaws.EveryGrantIsSound(r, n);
        GrantLaws.NoGrantForRefusedVersion(r, n, row);
      }
    }
    if call.command.Heartbeat? && BeatReports(w, call.command.beat, row) {
      BeatRefused(w, call.command.beat, call.now, row);
    }
  }

  // ----- the requests that block -----

  /** The row a request leaves blocked, when it is accepted: by what it is filed under and found by. */
  function BlockedBy(w: World, c: Command): Option<Release> {
    match c
    case CreateRelease(name, r, _) => if r.status == "blocked" then Some(r.(id := w.nextId, appId := name)) else None
    case PatchRelease(name, id, p) =>
      var k := ReleaseById(w.data.releases, name, id);
      if k < |w.data.releases| && Steps.Or(p.status, w.data.releases[k].status) == "blocked"
      then Some(w.data.releases[k].(status := "blocked")) else None
    case _ => None
  }

  /** It is stored so at once, under the name given, and a report of its version judged under that name is refused. */
  lemma BlockedAtOnce(w: World, call: Call) returns (k: nat)
    requires BlockedBy(w, call.command).Some? && Step(w, call).1 == Done(Steps.Ok)
    ensures var w', row := Step(w, call).0, BlockedBy(w, call.command).value;
            && k < |w'.data.releases| && SameRow(row, w'.data.releases[k]) && w'.data.releases[k].status == "blocked"
            && forall i: Integrity | i.appVersion == row.version && row.version != "" ::
                 IntegrityCheck.Refused(Verification.ReportedRelease(w'.data, row.appId, row.platform, i), i)
  {
    hide IntegrityCheck.Refused, Verification.ReportedRelease, Steps.MissingFields, Releases.ClampPercent, AppNamed;
    var w', c := Step(w, call).0, call.command;
    k := if c.CreateRelease? then |w.data.releases| else ReleaseById(w.data.releases, c.appId, c.releaseId);
    var row := w'.data.releases[k];
    forall i: Integrity | i.appVersion == row.version && row.version != ""
      ensures IntegrityCheck.Refused(Verification.ReportedRelease(w'.data, row.appId, row.platform, i), i)
    {
      BlockedRowRefuses(w'.data, row, i);
    }
  }

  /**
   A version created as blocked, or patched to be, is refused from then on to the application whose key it was filed
   under, whatever else the run holds, until a patch names the row and gives it another status.
   */
  lemma BlockedFromThenOn(r: Run, m: nat, n: nat)
    requires IsRun(r) && Valid(r.states[0]) && m < n < |r.calls|
    requires BlockedBy(r.states[m], r.calls[m].command).Some? && r.answers[m] == Done(Steps.Ok)
    requires var row := BlockedBy(r.states[m], r.calls[m].command).value;
             forall i | m < i < n :: !Unblocks(r.calls[i].command, row)
    ensures var w, c, row := r.states[n], r.calls[n].command, BlockedBy(r.states[m], r.calls[m].command).value;
            && (c.Verify? && Reports(w, c.request, row) ==> r.answers[n].Verified? && !r.answers[n].reply.Granted?)
            && (c.Heartbeat? && BeatReports(w, c.beat, row) ==> r.answers[n].Done? && r.answers[n].status != Steps.Ok)
  {
    hide Step, Valid, BlockedBy, IntegrityCheck.Refused;
    assert Stepped(r, m);
    var k := BlockedAtOnce(r.states[m], r.calls[m]);
    BlockedUntilPatched(r, m + 1, n, k);
  }

  // ----- rows filed under a name that is no application's key -----

  /** The rows filed under an application's key. */
  ghost function Keyed(d: Data): seq<Release> {
    Filter(d.releases, (r: Release) => IsKey(d.apps, r.appId))
  }

  /** The state without the other rows. */
  ghost function KeyedOnly(w: World): World {
    w.(data := w.data.(releases := Keyed(w.data)))
  }

  lemma FindReleaseFinds(rs: seq<Release>, appId: string, platform: string, version: string)
    ensures var matches := (r: Release) => Releases.Matches(r, appId, platform, version);
            var blocked := (r: Release) => Releases.Matches(r, appId, platform, version) && r.status == "blocked";
            Releases.ReleaseAt(rs, Releases.FindRelease(rs, appId, platform, version))
            == if Found(rs, blocked).Some? then Found(rs, blocked) else Found(rs, matches)
  {
  }

  /** Looked up by an application's key, the other rows might as well not be there. */
  lemma SameFound(d: Data, appId: string, platform: string, version: string)
    requires IsKey(d.apps, appId)
    ensures Releases.ReleaseAt(Keyed(d), Releases.FindRelease(Keyed(d), appId, platform, version))
            == Releases.ReleaseAt(d.releases, Releases.FindRelease(d.releases, appId, platform, version))
  {
    hide IsKey, Releases.FindRelease;
    var matches := (r: Release) => Releases.Matches(r, appId, platform, version);
    var blocked := (r: Release) => Releases.Matches(r, appId, platform, version) && r.status == "blocked";
    var keyed := (r: Release) => IsKey(d.apps, r.appId);
    FindReleaseFinds(d.releases, appId, platform, version);
    FindReleaseFinds(Keyed(d), appId, platform, version);
    FoundFiltered(d.releases, matches, keyed);
    FoundFiltered(d.releases, blocked, keyed);
  }

  lemma SameSignals(d: Data, appId: string, platform: string, i: Integrity)
    requires IsKey(d.apps, appId)
    ensures Verification.SignalsOn(d.(releases := Keyed(d)), appId, platform, i)
            == Verification.SignalsOn(d, appId, platform, i)
  {
    hide IsKey, IntegrityCheck.Signals, Keyed, Releases.FindRelease, Releases.ReleaseAt;
    SameFound(d, appId, platform, i.appVersion);
  }

  lemma {:induction false} SameCandidates(rs: seq<Release>, apps: seq<App>, appId: string, platform: string)
    requires IsKey(apps, appId)
    ensures Releases.Candidates(Filter(rs, (r: Release) => IsKey(apps, r.appId)), appId, platform)
            == Releases.Candidates(rs, appId, platform)
  {
    hide IsKey;
    if rs != [] {
      var n, keyed := |rs| - 1, (r: Release) => IsKey(apps, r.appId);
      SameCandidates(rs[..n], apps, appId, platform);
      assert rs == rs[..n] + [rs[n]];
      FilterSnoc(rs[..n], rs[n], keyed);
      var before := Filter(rs[..n], keyed);
      assert (before + [rs[n]])[..|before|] == before;
      assert before + [] == before;
    }
  }

  /** Nor is any update offered or withheld because of them. */
  lemma OffersIgnore(d: Data, appId: string, platform: string, current: string, device: Option<Id>,
                     bucketOf: (Id, Id) -> int)
    requires IsKey(d.apps, appId)
    ensures Releases.UpdateInfo(Keyed(d), appId, platform, current, device, bucketOf)
            == Releases.UpdateInfo(d.releases, appId, platform, current, device, bucketOf)
  {
    hide IsKey, Keyed, Releases.LatestRelease, Releases.BelowMinimum, Releases.InRollout;
    SameLatest(d, appId, platform);
    var latest := Releases.LatestRelease(d.releases, appId, platform);
    if latest.Some? {
      SameMinimum(d, appId, platform, current, latest.value.minSupportedVersion);
    }
  }

  lemma SameLatest(d: Data, appId: string, platform: string)
    requires IsKey(d.apps, appId)
    ensures Releases.LatestRelease(Keyed(d), appId, platform) == Releases.LatestRelease(d.releases, appId, platform)
  {
    hide IsKey, Sort, Releases.Candidates;
    SameCandidates(d.releases, d.apps, appId, platform);
  }

  lemma SameMinimum(d: Data, appId: string, platform: string, current: string, minimum: string)
    requires IsKey(d.apps, appId)
    ensures Releases.BelowMinimum(Keyed(d), appId, platform, current, minimum)
            == Releases.BelowMinimum(d.releases, appId, platform, current, minimum)
  {
    hide IsKey, Keyed, Releases.FindRelease, Releases.ReleaseAt, Versions.Compare;
    SameFound(d, appId, platform, current);
    SameFound(d, appId, platform, minimum);
  }

  /** Two states that differ in their releases only. */
  ghost predicate ButReleases(a: World, b: World) {
    b == a.(data := a.data.(releases := b.data.releases))
  }

  lemma SeeDeviceAlike(a: World, b: World, req: Verification.Request, now: Time)
    requires ButReleases(a, b)
    ensures var x, y := Verification.SeeDevice(a, req, now), Verification.SeeDevice(b, req, now);
            ButReleases(x.0, y.0) && y.1 == x.1 && y.0.data.releases == b.data.releases
            && x.0.data.releases == a.data.releases
  {
  }

  lemma GatesAlike(a: World, b: World, req: Verification.Request, l: License, v: Device, claims: Option<Claims>,
                   now: Time)
    requires ButReleases(a, b)
    ensures Verification.GateLicense(b.data, b.issued, req, now) == Verification.GateLicense(a.data, a.issued, req, now)
    ensures Verification.GateDevice(b.data, l, v, claims) == Verification.GateDevice(a.data, l, v, claims)
  {
  }

  /** Once the releases give the same signals, the stages behind the licence gate reply the same. */
  lemma BindAlike(a: World, b: World, req: Verification.Request, g: Verification.LicenseGate, now: Time)
    requires ButReleases(a, b) && g.Pass? && g.app < |a.data.apps| && g.license < |a.data.licenses|
    requires var appKey := a.data.apps[g.app].appKey;
             Verification.SignalsOn(b.data, appKey, req.platform, req.integrity)
             == Verification.SignalsOn(a.data, appKey, req.platform, req.integrity)
    ensures Verification.Bind(b, req, g, now).1 == Verification.Bind(a, req, g, now).1
  {
    hide Verification.GateDevice, Verification.SeeDevice, Verification.Examine, Verification.SignalsOn,
      IntegrityCheck.Denies, IntegrityCheck.Assess, Keeps, Policies.BundleFor, Tokens.IssueClaims;
    var appKey, l := a.data.apps[g.app].appKey, a.data.licenses[g.license];
    SeeDeviceAlike(a, b, req, now);
    var (a1, i) := Verification.SeeDevice(a, req, now);
    var b1 := Verification.SeeDevice(b, req, now).0;
    var v := a1.data.devices[i];
    GatesAlike(a1, b1, req, l, v, g.claims, now);
    var gate := Verification.GateDevice(a1.data, l, v, g.claims);
    if !gate.Turned? {
      var a2 := Verification.Activate(a1, gate, l.id, v.id, appKey, now);
      var b2 := Verification.Activate(b1, gate, l.id, v.id, appKey, now);
      VerifyLaws.ReleasesOnly(a.data, a2.data, appKey, req.platform, req.integrity);
      VerifyLaws.ReleasesOnly(b.data, b2.data, appKey, req.platform, req.integrity);
      StepInvariants.ExamineKeeps(a2, i, appKey, l.id, req.platform, req.integrity, now);
      StepInvariants.ExamineKeeps(b2, i, appKey, l.id, req.platform, req.integrity, now);
    }
  }

  /** No activate or verify request is answered otherwise because of such rows. */
  lemma VerifyIgnores(w: World, req: Verification.Request, now: Time)
    ensures Verification.Verify(KeyedOnly(w), req, now).1 == Verification.Verify(w, req, now).1
  {
    hide Verification.GateLicense, Verification.GateDevice, Verification.Bind, Verification.SignalsOn,
      Verification.AfterStop, Verification.RefusalRisk, RateLimit.IsLimited, IsKey, Keyed, Verification.Blank;
    var v := KeyedOnly(w);
    if !Verification.Blank(req) {
      VerifyLaws.NotBlank(req);
      var w1 := w.(challenges := Challenges.Consume(w.challenges, req.challenge.value, now));
      var v1 := v.(challenges := Challenges.Consume(v.challenges, req.challenge.value, now));
      var anyone := Device(0, Sha256(""), Sha256(""), "", "", Sha256(""), 0, DeviceActive, 0, 0);
      GatesAlike(w1, v1, req, License(0, Sha256(""), "", 0, [], 0, Active, 0), anyone, None, now);
      var g := Verification.GateLicense(w1.data, w1.issued, req, now);
      if g.Pass? {
        AppIsKey(w.data.apps, g.app);
        SameSignals(w.data, w.data.apps[g.app].appKey, req.platform, req.integrity);
        BindAlike(w1, v1, req, g, now);
      }
    }
  }

  lemma AppIsKey(apps: seq<App>, i: nat)
    requires i < |apps|
    ensures IsKey(apps, apps[i].appKey)
  {
    assert apps[i] in apps;
  }

  lemma HeartbeatIgnores(w: World, req: Steps.HeartbeatRequest, now: Time)
    requires Valid(w)
    ensures Steps.Heartbeat(KeyedOnly(w), req, now).1 == Steps.Heartbeat(w, req, now).1
  {
    hide Valid, Steps.Evidence, Steps.ExamineBeat, Steps.TouchActivation, Steps.TouchDevice, Verification.SignalsOn,
      IntegrityCheck.Denies, Steps.PlatformOf, IsKey, Keyed;
    var v, c := KeyedOnly(w), req.token;
    var w2 := Steps.TouchDevice(Steps.TouchActivation(w, c, now), c.deviceId, now);
    var v2 := Steps.TouchDevice(Steps.TouchActivation(v, c, now), c.deviceId, now);
    TouchAlike(w, v, req, now);
    if c in w.issued {
      FilingLaws.TokenNamesKey(w, c);
      if Steps.Evidence(req).Some? {
        var platform, i := Steps.PlatformOf(w2, req), Steps.Evidence(req).value;
        SameSignals(w.data, c.appId, platform, i);
        VerifyLaws.ReleasesOnly(w.data, w2.data, c.appId, platform, i);
        VerifyLaws.ReleasesOnly(v.data, v2.data, c.appId, platform, i);
      }
    }
  }

  lemma TouchAlike(a: World, b: World, req: Steps.HeartbeatRequest, now: Time)
    requires ButReleases(a, b)
    ensures var c := req.token;
            var a1, b1 := Steps.TouchActivation(a, c, now), Steps.TouchActivation(b, c, now);
            var a2, b2 := Steps.TouchDevice(a1, c.deviceId, now), Steps.TouchDevice(b1, c.deviceId, now);
            && Steps.WrongInstall(b1.data, c, req.installId) == Steps.WrongInstall(a1.data, c, req.installId)
            && Steps.PlatformOf(b2, req) == Steps.PlatformOf(a2, req)
            && a2.data.releases == a.data.releases && b2.data.releases == b.data.releases
  {
    hide Steps.PlatformOf;
    TouchKeepsPlatform(a, req, now);
    TouchKeepsPlatform(b, req, now);
    PlatformAlike(a, b, req);
  }

  lemma PlatformAlike(a: World, b: World, req: Steps.HeartbeatRequest)
    requires ButReleases(a, b)
    ensures Steps.PlatformOf(b, req) == Steps.PlatformOf(a, req)
  {
  }

  /**
   Blocked, patched or whatever they are, rows filed under a name that is no application's key decide nothing: every
   client of every run is answered as if they were not there.
   */
  lemma OtherRowsDecideNothing(r: Run, n: nat)
    requires IsRun(r) && Valid(r.states[0]) && n < |r.calls|
    ensures var w, call := KeyedOnly(r.states[n]), r.calls[n];
            && (call.command.Verify? ==>
                  r.answers[n] == Verified(Verification.Verify(w, call.command.request, call.now).1))
            && (call.command.Heartbeat? ==> r.answers[n] == Done(Steps.Heartbeat(w, call.command.beat, call.now).1))
  {
    hide Valid, KeyedOnly, Verification.Verify, Steps.Heartbeat;
    assert Stepped(r, n);
    StepInvariants.RunKeeps(r, n, n);
    match r.calls[n].command
    case Verify(req) => VerifyIgnores(r.states[n], req, r.calls[n].now);
    case Heartbeat(req) => HeartbeatIgnores(r.states[n], req, r.calls[n].now);
    case _ =>
  }

  /** A name in use that is no application's key never becomes one: creating an application with it is refused. */
  lemma {:induction false} NeverKeyed(r: Run, m: nat, n: nat, name: string)
    requires IsRun(r) && m <= n < |r.states|
    requires AppNamed(r.states[m].data.apps, name) < |r.states[m].data.apps| && !IsKey(r.states[m].data.apps, name)
    ensures AppNamed(r.states[n].data.apps, name) < |r.states[n].data.apps| && !IsKey(r.states[n].data.apps, name)
    decreases n
  {
    hide Step, IsKey, FilingLaws.Files, FilingLaws.Filed;
    if m < n {
      NeverKeyed(r, m, n - 1, name);
      assert Stepped(r, n - 1);
      var w, call := r.states[n - 1], r.calls[n - 1];
      FilingLaws.StepFiles(w, call);
      FilingLaws.FilesKnown(w, call.command);
      assert w.data.apps + [] == w.data.apps;
      var filed := FilingLaws.Files(w, call.command);
      if call.command.CreateApp? && filed.Some? {
        var a := App(call.command.id, filed.value, AppActive);
        FilingLaws.NewKeyOnly(w.data.apps, a, name);
        NameKept(w.data.apps, a, name);
      }
    }
  }

  /**
   A version blocked under an application's ID blocks nobody: the row is filed under no application's key, then and
   at every later state, so no later request of the run is answered otherwise because of it.
   */
  lemma BlockedByIdBlocksNobody(r: Run, m: nat, n: nat)
    requires IsRun(r) && Valid(r.states[0]) && m < n < |r.calls|
    requires BlockedBy(r.states[m], r.calls[m].command).Some? && r.answers[m] == Done(Steps.Ok)
    requires !IsKey(r.states[m].data.apps, BlockedBy(r.states[m], r.calls[m].command).value.appId)
    ensures var w, call, row := r.states[n], r.calls[n], BlockedBy(r.states[m], r.calls[m].command).value;
            && (forall x | x in Keyed(w.data) :: x.appId != row.appId)
            && (call.command.Verify? ==>
                  r.answers[n] == Verified(Verification.Verify(KeyedOnly(w), call.command.request, call.now).1))
            && (call.command.Heartbeat? ==>
                  r.answers[n] == Done(Steps.Heartbeat(KeyedOnly(w), call.command.beat, call.now).1))
  {
    hide Step, Valid, IsKey, BlockedBy, KeyedOnly, Keyed, Verification.Verify, Steps.Heartbeat;
    assert Stepped(r, m);
    StepInvariants.RunKeeps(r, m, m);
    BlockedIsKnown(r.states[m], r.calls[m]);
    NeverKeyed(r, m, n, BlockedBy(r.states[m], r.calls[m].command).value.appId);
    OtherRowsDecideNothing(r, n);
    KeyedNames(r.states[n].data);
  }

  lemma BlockedIsKnown(w: World, call: Call)
    requires Valid(w) && BlockedBy(w, call.command).Some? && Step(w, call).1 == Done(Steps.Ok)
    ensures AppNamed(w.data.apps, BlockedBy(w, call.command).value.appId) < |w.data.apps|
  {
    hide Steps.MissingFields;
  }

  lemma KeyedNames(d: Data)
    ensures forall x | x in Keyed(d) :: IsKey(d.apps, x.appId)
  {
    hide IsKey;
    FilteredPass(d.releases, (r: Release) => IsKey(d.apps, r.appId));
  }
}
