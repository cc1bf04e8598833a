/** The server as a machine: every request is one step, and a run is a list of timed requests. */
module Machine {
  import opened Types
  import opened World
  import RateLimit
  import Steps
  import Verification

  datatype Command =
    | SetRateLimit(limits: RateLimit.Limits)
    | IssueChallenge(challenge: Steps.ChallengeRequest)
    | Verify(request: Verification.Request)
    | Heartbeat(beat: Steps.HeartbeatRequest)
    | CapabilityCheck(check: Steps.CapabilityRequest)
    | Deactivate(off: Steps.DeactivateRequest)
    | ActOnLicense(licenseId: Id, licenseAction: Steps.LicenseAction)
    | CreateLicense(license: Steps.LicenseRequest, key: string)
    | ActOnDevice(deviceId: Id, deviceAction: Steps.DeviceAction)
    | ResolveRisk(eventId: Id)
    | RotateKey(appId: string)
    | CreateApp(id: string, appKey: string, name: string, platform: string, version: string)
    | UpsertPolicies(appId: string, items: seq<Policy>)
    | SeedDefaults(appId: string)
    | UpdateSettings(settings: Steps.SettingsPatch)
    | CreateRelease(appId: string, release: Release, validate: bool)
    | PatchRelease(appId: string, releaseId: Id, patch: Steps.ReleasePatch)

  /** A request as it arrives: who sent it (for the audit log) and what the clock read. */
  datatype Call = Call(command: Command, adminId: string, now: Time)

  datatype Response =
    | Verified(reply: Verification.Reply)
    | Decided(status: Steps.Status, decision: Option<Decision>)
    | Done(status: Steps.Status)

  function Plain(r: (World, Steps.Status)): (World, Response) {
    (r.0, Done(r.1))
  }

  function Step(w: World, call: Call): (World, Response) {
    var now, admin := call.now, call.adminId;
    match call.command
    case SetRateLimit(limits) => (w.(limits := limits, rates := map[]), Done(Steps.Ok))
    case IssueChallenge(req) => Plain(Steps.IssueChallenge(w, req, now))
    case Verify(req) => var (w', r) := Verification.Verify(w, req, now); (w', Verified(r))
    case Heartbeat(req) => Plain(Steps.Heartbeat(w, req, now))
    case CapabilityCheck(req) => var (w', s, d) := Steps.CapabilityCheck(w, req, now); (w', Decided(s, d))
    case Deactivate(req) => Plain(Steps.Deactivate(w, req, now))
    case ActOnLicense(id, action) => Plain(Steps.ActOnLicense(w, id, action, admin, now))
    case CreateLicense(req, key) => Plain(Steps.CreateLicense(w, req, key, admin, now))
    case ActOnDevice(id, action) => Plain(Steps.ActOnDevice(w, id, action, admin, now))
    case ResolveRisk(id) => Plain(Steps.ResolveRisk(w, id, admin, now))
    case RotateKey(appId) => Plain(Steps.RotateKey(w, appId, admin, now))
    case CreateApp(id, appKey, name, platform, version) =>
      Plain(Steps.CreateApp(w, id, appKey, name, platform, version, admin, now))
    case UpsertPolicies(appId, items) => Plain(Steps.UpsertPolicies(w, appId, items, admin, now))
    case SeedDefaults(appId) => Plain(Steps.SeedDefaults(w, appId, admin, now))
    case UpdateSettings(patch) => Plain(Steps.UpdateSettings(w, patch, admin, now))
    case CreateRelease(appId, release, validate) => Plain(Steps.CreateRelease(w, appId, release, validate, admin, now))
    case PatchRelease(appId, id, patch) => Plain(Steps.PatchRelease(w, appId, id, patch, admin, now))
  }

  /** A run: the states it passes through, the calls made and what each was answered. */
  datatype Run = Run(states: seq<World>, calls: seq<Call>, answers: seq<Response>)

  /** Call i leads from its state to the next, with its answer. */
  ghost predicate Stepped(r: Run, i: nat)
    requires |r.states| == |r.calls| + 1 && |r.answers| == |r.calls| && i < |r.calls|
  {
    (r.states[i + 1], r.answers[i]) == Step(r.states[i], r.calls[i])
  }

  /** One state more than calls, each call a step from its state to the next, and a clock that never runs backwards. */
  ghost predicate IsRun(r: Run) {
    && |r.states| == |r.calls| + 1
    && |r.answers| == |r.calls|
    && (forall i | 0 <= i < |r.calls| :: Stepped(r, i))
    && (forall i, j | 0 <= i <= j < |r.calls| :: r.calls[i].now <= r.calls[j].now)
  }

  function Execute(w: World, calls: seq<Call>): (r: Run)
    ensures |r.states| == |calls| + 1 && |r.answers| == |calls| && r.calls == calls
  {
    if calls == [] then Run([w], [], [])
    else
      var n := |calls| - 1;
      var r := Execute(w, calls[..n]);
      var (w', answer) := Step(r.states[n], calls[n]);
      Run(r.states + [w'], calls, r.answers + [answer])
  }

  /** Every list of calls made under a clock that never runs backwards has its run, from every state. */
  lemma {:induction false} ExecuteIsRun(w: World, calls: seq<Call>)
    requires forall i, j | 0 <= i <= j < |calls| :: calls[i].now <= calls[j].now
    ensures IsRun(Execute(w, calls)) && Execute(w, calls).states[0] == w
    decreases |calls|
  {
    if calls != [] {
      hide Step;
      var n := |calls| - 1;
      ExecuteIsRun(w, calls[..n]);
      var before, r := Execute(w, calls[..n]), Execute(w, calls);
      forall i | 0 <= i < |calls| ensures Stepped(r, i) {
        assert i < n ==> Stepped(before, i);
      }
    }
  }
}
