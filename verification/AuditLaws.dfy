/** Over whole runs: the audit log is the list of what admins did, in order, and nothing else. */
module AuditLaws {
  import opened Types
  import opened Lookup
  import opened World
  import opened Invariants
  import opened Machine
  import opened Frames
  import Policies
  import StepInvariants
  import Steps
  import Tokens

  /** What an entry says, its identifier aside. */
  datatype Entry = Entry(adminId: string, action: AuditAction, target: AuditTarget, at: Time)

  function EntryOf(a: AuditLog): Entry {
    Entry(a.adminId, a.action, a.target, a.createdAt)
  }

  function EntriesOf(logs: seq<AuditLog>): (r: seq<Entry>)
    ensures |r| == |logs|
  {
    seq(|logs|, k requires 0 <= k < |logs| => EntryOf(logs[k]))
  }

  function LicenseDeed(a: Steps.LicenseAction): AuditAction {
    match a case Revoke => LicenseRevoke case Suspend => LicenseSuspend case Resume => LicenseResume
  }

  function DeviceDeed(a: Steps.DeviceAction): AuditAction {
    match a case Block => DeviceBlock case Unblock => DeviceUnblock case Unbind => DeviceUnbind
  }

  /** What a request, answered Ok, is to be remembered as; client requests and new limits are not. */
  function Deed(w: World, c: Command): Option<(AuditAction, AuditTarget)> {
    match c
    case ActOnLicense(id, action) => Some((LicenseDeed(action), OnLicense(id)))
    case CreateLicense(_, _) => Some((LicenseCreate, OnLicense(w.nextId)))
    case ActOnDevice(id, action) => Some((DeviceDeed(action), OnDevice(id)))
    case ResolveRisk(id) =>
      if exists e | e in w.data.riskEvents :: e.id == id && e.resolvedAt.None? then Some((RiskResolve, OnRiskEvent(id)))
      else None
    case RotateKey(appId) => Some((SdkKeyRotate, OnApp(appId)))
    case CreateApp(_, appKey, _, _, _) => Some((AppCreate, OnApp(appKey)))
    case UpsertPolicies(appId, _) => Some((PolicyUpsert, OnApp(appId)))
    case SeedDefaults(appId) => Some((PolicySeed, OnApp(appId)))
    case UpdateSettings(_) => Some((SettingsUpdate, OnSettings))
    case CreateRelease(appId, _, _) => Some((ReleaseCreate, OnApp(appId)))
    case PatchRelease(_, id, _) => Some((ReleaseUpdate, OnRelease(id)))
    case _ => None
  }

  /** The entry a call leaves: its deed, by its admin, at its time, if it was answered Ok. */
  function Left(w: World, call: Call, answer: Response): seq<Entry> {
    if answer == Done(Steps.Ok) && Deed(w, call.command).Some? then
      var (action, target) := Deed(w, call.command).value;
      [Entry(call.adminId, action, target, call.now)]
    else []
  }

  lemma EntriesSnoc(logs: seq<AuditLog>, a: AuditLog)
    ensures EntriesOf(logs + [a]) == EntriesOf(logs) + [EntryOf(a)]
  {
  }

  /** One entry more, or none. */
  ghost predicate Leaves(w: World, w': World, call: Call, answer: Response) {
    EntriesOf(w'.data.auditLogs) == EntriesOf(w.data.auditLogs) + Left(w, call, answer)
  }

  lemma SameEntries(w: World, w': World, call: Call, answer: Response)
    requires w'.data.auditLogs == w.data.auditLogs && Left(w, call, answer) == []
    ensures Leaves(w, w', call, answer)
  {
    assert EntriesOf(w.data.auditLogs) + [] == EntriesOf(w.data.auditLogs);
  }

  /** A refused request changes no log; an accepted one audits as the last thing it does. */
  ghost predicate Audits(w: World, w': World, s: Steps.Status, adminId: string, action: AuditAction, target: AuditTarget,
                         now: Time)
  {
    if s == Steps.Ok
    then EntriesOf(w'.data.auditLogs) == EntriesOf(w.data.auditLogs) + [Entry(adminId, action, target, now)]
    else w'.data.auditLogs == w.data.auditLogs
  }

  lemma AuditsLast(w: World, admin: string, action: AuditAction, target: AuditTarget, now: Time)
    ensures forall x: World | x.data.auditLogs == w.data.auditLogs ::
              EntriesOf(WithAudit(x, admin, action, target, now).data.auditLogs)
              == EntriesOf(w.data.auditLogs) + [Entry(admin, action, target, now)]
  {
    forall x: World | x.data.auditLogs == w.data.auditLogs
      ensures EntriesOf(WithAudit(x, admin, action, target, now).data.auditLogs)
              == EntriesOf(w.data.auditLogs) + [Entry(admin, action, target, now)]
    {
      EntriesSnoc(x.data.auditLogs, AuditLog(x.nextId, admin, action, target, now));
    }
  }

  lemma LicenseActionAudits(w: World, id: Id, a: Steps.LicenseAction, admin: string, now: Time)
    ensures var (w', s) := Steps.ActOnLicense(w, id, a, admin, now);
            Audits(w, w', s, admin, LicenseDeed(a), OnLicense(id), now)
  {
    hide EntriesOf, LicenseById, Steps.BlockActivations;
    AuditsLast(w, admin, LicenseDeed(a), OnLicense(id), now);
  }

  lemma CreateLicenseAudits(w: World, req: Steps.LicenseRequest, key: string, admin: string, now: Time)
    ensures var (w', s) := Steps.CreateLicense(w, req, key, admin, now);
            Audits(w, w', s, admin, LicenseCreate, OnLicense(w.nextId), now)
  {
    hide EntriesOf, AppNamed, Tokens.Normalize;
    AuditsLast(w, admin, LicenseCreate, OnLicense(w.nextId), now);
  }

  lemma DeviceActionAudits(w: World, id: Id, a: Steps.DeviceAction, admin: string, now: Time)
    ensures var (w', s) := Steps.ActOnDevice(w, id, a, admin, now);
            Audits(w, w', s, admin, DeviceDeed(a), OnDevice(id), now)
  {
    hide EntriesOf, DeviceById, Steps.UnbindActivations;
    AuditsLast(w, admin, DeviceDeed(a), OnDevice(id), now);
  }

  /** An event already resolved is answered Ok and not audited again. */
  lemma ResolveAudits(w: World, id: Id, admin: string, now: Time)
    requires forall i, j | 0 <= i < j < |w.data.riskEvents| :: w.data.riskEvents[i].id != w.data.riskEvents[j].id
    ensures var (w', s) := Steps.ResolveRisk(w, id, admin, now);
            if exists e | e in w.data.riskEvents :: e.id == id && e.resolvedAt.None?
            then s == Steps.Ok && Audits(w, w', s, admin, RiskResolve, OnRiskEvent(id), now)
            else w'.data.auditLogs == w.data.auditLogs
  {
    hide EntriesOf;
    AuditsLast(w, admin, RiskResolve, OnRiskEvent(id), now);
  }

  lemma RotateKeyAudits(w: World, appId: string, admin: string, now: Time)
    ensures var (w', s) := Steps.RotateKey(w, appId, admin, now);
            Audits(w, w', s, admin, SdkKeyRotate, OnApp(appId), now)
  {
    hide EntriesOf, AppNamed, Steps.RetireKeys;
    AuditsLast(w, admin, SdkKeyRotate, OnApp(appId), now);
  }

  lemma CreateAppAudits(w: World, id: string, appKey: string, name: string, platform: string, version: string,
                        admin: string, now: Time)
    ensures var (w', s) := Steps.CreateApp(w, id, appKey, name, platform, version, admin, now);
            Audits(w, w', s, admin, AppCreate, OnApp(appKey), now)
  {
    hide EntriesOf, AppNamed, Steps.IsVisionFlow, Steps.FirstRelease, Policies.Seed, Policies.VisionFlowDefaults;
    AuditsLast(w, admin, AppCreate, OnApp(appKey), now);
  }

  lemma PolicyRequestsAudit(w: World, appId: string, items: seq<Policy>, admin: string, now: Time)
    ensures var (w', s) := Steps.UpsertPolicies(w, appId, items, admin, now);
            Audits(w, w', s, admin, PolicyUpsert, OnApp(appId), now)
    ensures var (w', s) := Steps.SeedDefaults(w, appId, admin, now);
            Audits(w, w', s, admin, PolicySeed, OnApp(appId), now)
  {
    hide EntriesOf, AppNamed, Steps.NormalizeAll, Policies.UpsertAll, Policies.Seed, Policies.VisionFlowDefaults;
    AuditsLast(w, admin, PolicyUpsert, OnApp(appId), now);
    AuditsLast(w, admin, PolicySeed, OnApp(appId), now);
  }

  lemma SettingsAudit(w: World, p: Steps.SettingsPatch, admin: string, now: Time)
    ensures var (w', s) := Steps.UpdateSettings(w, p, admin, now);
            Audits(w, w', s, admin, SettingsUpdate, OnSettings, now)
  {
    hide EntriesOf, Steps.Patched, Tokens.Normalize;
    AuditsLast(w, admin, SettingsUpdate, OnSettings, now);
  }

  lemma CreateReleaseAudits(w: World, appId: string, r: Release, validate: bool, admin: string, now: Time)
    ensures var (w', s) := Steps.CreateRelease(w, appId, r, validate, admin, now);
            Audits(w, w', s, admin, ReleaseCreate, OnApp(appId), now)
  {
    hide EntriesOf, AppNamed, Steps.MissingFields;
    AuditsLast(w, admin, ReleaseCreate, OnApp(appId), now);
  }

  lemma PatchReleaseAudits(w: World, appId: string, id: Id, p: Steps.ReleasePatch, admin: string, now: Time)
    ensures var (w', s) := Steps.PatchRelease(w, appId, id, p, admin, now);
            Audits(w, w', s, admin, ReleaseUpdate, OnRelease(id), now)
  {
    hide EntriesOf, ReleaseById, Steps.MissingFields, Steps.PatchedRelease;
    AuditsLast(w, admin, ReleaseUpdate, OnRelease(id), now);
  }

  /** Requests that may not write the log leave nothing there. */
  lemma OthersLeaveNothing(w: World, call: Call)
    requires LogRows !in MayChange(call.command)
    ensures Leaves(w, Step(w, call).0, call, Step(w, call).1)
  {
    StepFrame(w, call);
    NoDeed(w, call.command);
    hide Step;
    SameEntries(w, Step(w, call).0, call, Step(w, call).1);
  }

  lemma NoDeed(w: World, c: Command)
    requires LogRows !in MayChange(c)
    ensures Deed(w, c).None?
  {
  }

  lemma EventsOnce(w: World)
    requires Valid(w)
    ensures forall i, j | 0 <= i < j < |w.data.riskEvents| :: w.data.riskEvents[i].id != w.data.riskEvents[j].id
  {
  }

  /** Every call leaves exactly the entry of its deed. */
  lemma StepLeaves(w: World, call: Call)
    requires Valid(w)
    ensures Leaves(w, Step(w, call).0, call, Step(w, call).1)
  {
    hide EntriesOf, MayChange, Valid, Steps.ActOnLicense, Steps.CreateLicense, Steps.ActOnDevice, Steps.ResolveRisk,
      Steps.RotateKey, Steps.CreateApp, Steps.UpsertPolicies, Steps.SeedDefaults, Steps.UpdateSettings,
      Steps.CreateRelease, Steps.PatchRelease;
    var now, admin := call.now, call.adminId;
    assert EntriesOf(w.data.auditLogs) + [] == EntriesOf(w.data.auditLogs);
    match call.command
    case ActOnLicense(id, a) => LicenseActionAudits(w, id, a, admin, now);
    case CreateLicense(req, key) => CreateLicenseAudits(w, req, key, admin, now);
    case ActOnDevice(id, a) => DeviceActionAudits(w, id, a, admin, now);
    case ResolveRisk(id) =>
      EventsOnce(w);
      ResolveAudits(w, id, admin, now);
    case RotateKey(appId) => RotateKeyAudits(w, appId, admin, now);
    case CreateApp(id, appKey, name, platform, version) =>
      CreateAppAudits(w, id, appKey, name, platform, version, admin, now);
    case UpsertPolicies(appId, items) => PolicyRequestsAudit(w, appId, items, admin, now);
    case SeedDefaults(appId) => PolicyRequestsAudit(w, appId, [], admin, now);
    case UpdateSettings(p) => SettingsAudit(w, p, admin, now);
    case CreateRelease(appId, r, validate) => CreateReleaseAudits(w, appId, r, validate, admin, now);
    case PatchRelease(appId, id, p) => PatchReleaseAudits(w, appId, id, p, admin, now);
    case _ => ClientsLeaveNothing(w, call);
  }

  lemma ClientsLeaveNothing(w: World, call: Call)
    requires var c := call.command;
             || c.SetRateLimit? || c.IssueChallenge? || c.Verify? || c.Heartbeat? || c.CapabilityCheck? || c.Deactivate?
    ensures Leaves(w, Step(w, call).0, call, Step(w, call).1)
  {
    hide Step, Leaves;
    OthersLeaveNothing(w, call);
  }

  /** The deeds of the first n calls of a run, in order. */
  function DeedsOf(r: Run, n: nat): seq<Entry>
    requires n <= |r.calls| && |r.states| == |r.calls| + 1 && |r.answers| == |r.calls|
  {
    if n == 0 then [] else DeedsOf(r, n - 1) + Left(r.states[n - 1], r.calls[n - 1], r.answers[n - 1])
  }

  /** The audit log of every run is what it began with and then the deeds of its calls: none missing, none invented. */
  lemma {:induction false} LogIsDeeds(r: Run, n: nat)
    requires IsRun(r) && Valid(r.states[0]) && n <= |r.calls|
    ensures EntriesOf(r.states[n].data.auditLogs) == EntriesOf(r.states[0].data.auditLogs) + DeedsOf(r, n)
  {
    hide Step, Valid, EntriesOf, Left;
    if n == 0 {
      assert EntriesOf(r.states[0].data.auditLogs) + [] == EntriesOf(r.states[0].data.auditLogs);
    } else {
      LogIsDeeds(r, n - 1);
      assert Stepped(r, n - 1);
      StepInvariants.RunKeeps(r, n - 1, n - 1);
      StepLeaves(r.states[n - 1], r.calls[n - 1]);
      var before := EntriesOf(r.states[0].data.auditLogs);
      assert before + (DeedsOf(r, n - 1) + Left(r.states[n - 1], r.calls[n - 1], r.answers[n - 1]))
          == before + DeedsOf(r, n - 1) + Left(r.states[n - 1], r.calls[n - 1], r.answers[n - 1]);
    }
  }
}
