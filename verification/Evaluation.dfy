/** The integrity evaluator's bookkeeping: its running total and the events it logs, check by check. */
module Evaluation {
  import opened IntegrityCheck
  import opened Types
  import opened World
  import Verification

  /** Each item once, in the order of first sight. */
  method UniqueActions(items: seq<Action>) returns (out: seq<Action>)
    ensures out == Unique(items)
  {
    var seen := {};
    out := [];
    for i := 0 to |items|
      invariant out == Unique(items[..i])
      invariant forall x :: x in seen <==> x in out
    {
      assert items[..i + 1][..i] == items[..i];
      if items[i] !in seen {
        seen := seen + {items[i]};
        out := out + [items[i]];
      }
    }
    assert items[..|items|] == items;
  }

  /** The evaluator's running total: score, denial and actions so far. */
  datatype Tally = Tally(score: int, deny: bool, actions: seq<Action>) {
    function Denied(points: nat): Tally {
      Tally(score + points, true, actions + [Deny])
    }

    function Noted(points: nat, tags: seq<Action>): Tally {
      Tally(score + points, deny, actions + tags)
    }
  }

  datatype Subject = Subject(appId: string, deviceId: Id, licenseId: Id, now: Time)

  /** The total and the log say the same signals. */
  ghost predicate Accounted(before: World, after: World, s: Subject, signals: seq<Signal>, t: Tally) {
    && after == Verification.LogSignals(before, s.appId, s.deviceId, s.licenseId, signals, s.now)
    && t == Tally(10 + Points(signals), Denies(signals), Tags(signals))
  }

  /** After the first k checks. */
  ghost predicate Checked(before: World, after: World, s: Subject, r: Option<Release>, i: Integrity, k: nat, t: Tally) {
    Accounted(before, after, s, RaisedBy(r, i, k), t)
  }

  /** One check made: it fires exactly when the report shows its sign, and then weighs and logs what it should. */
  ghost predicate MadeCheck(w: World, w': World, s: Subject, r: Option<Release>, i: Integrity, e: EventType,
                            t: Tally, t': Tally)
  {
    var g := SignalFor(|i.suspiciousModules|, e);
    if Shows(r, i, e) then
      && w' == WithRisk(w, s.appId, Some(s.deviceId), s.licenseId, e, g.answer.Severity(), g.answer.EventAction(), s.now)
      && t' == Tally(t.score + g.points, t.deny || g.answer.Denying?, t.actions + g.answer.Tags())
    else w' == w && t' == t
  }

  lemma LogNext(w: World, s: Subject, signals: seq<Signal>, g: Signal)
    ensures Verification.LogSignals(w, s.appId, s.deviceId, s.licenseId, signals + [g], s.now)
            == WithRisk(Verification.LogSignals(w, s.appId, s.deviceId, s.licenseId, signals, s.now),
                        s.appId, Some(s.deviceId), s.licenseId, g.eventType, g.answer.Severity(), g.answer.EventAction(),
                        s.now)
  {
    assert (signals + [g])[..|signals|] == signals;
  }

  lemma SignalNames(modules: nat, e: EventType)
    ensures SignalFor(modules, e).eventType == e
  {
  }

  lemma CheckedNext(before: World, w: World, w': World, s: Subject, r: Option<Release>, i: Integrity, k: nat,
                    t: Tally, t': Tally)
    requires Checked(before, w, s, r, i, k, t)
    requires MadeCheck(w, w', s, r, i, CheckAt(k), t, t')
    ensures Checked(before, w', s, r, i, k + 1, t')
  {
    hide Shows, SignalFor, CheckAt, RaisedBy,
      Points, Tags, Denies, Verification.LogSignals;
    RaisedStep(r, i, k + 1);
    SignalNames(|i.suspiciousModules|, CheckAt(k));
    LogNext(before, s, RaisedBy(r, i, k), SignalFor(|i.suspiciousModules|, CheckAt(k)));
  }

  /** The checks on a release, in order: when each fires and what it raises. */
  lemma ReleaseChecks(release: Release, i: Integrity)
    requires i.appVersion != ""
    ensures CheckAt(1) == AppVersionBlocked && CheckAt(2) == AppVersionDeprecated
    ensures CheckAt(3) == BinaryHashMismatch && CheckAt(4) == SignatureMismatch
    ensures CheckAt(5) == BusinessManifestMismatch && CheckAt(6) == DbSchemaMismatch
    ensures CheckAt(7) == DbTablesMismatch && CheckAt(8) == AssetManifestMismatch
    ensures CheckAt(9) == WorkflowManifestMismatch
    ensures var r := Some(release);
            && Shows(r, i, CheckAt(1)) == (release.status == "blocked")
            && Shows(r, i, CheckAt(2)) == (release.status == "deprecated")
            && Shows(r, i, CheckAt(3))
               == Differs(release.mainBinaryHash, i.mainBinaryHash)
            && Shows(r, i, CheckAt(4))
               == Differs(release.signerThumbprint, i.signerThumbprint)
            && Shows(r, i, CheckAt(5))
               == Misses(ExpectedManifest(release), i.businessManifest)
            && Shows(r, i, CheckAt(6)) == Misses(release.dbSchemaHash, i.dbSchemaHash)
            && Shows(r, i, CheckAt(7)) == Misses(release.dbTablesHash, i.dbTablesHash)
            && Shows(r, i, CheckAt(8))
               == Misses(release.assetsManifest, i.assetsManifest)
            && Shows(r, i, CheckAt(9))
               == Misses(release.workflowManifest, i.workflowManifest)
  {
    hide Differs, Misses, ExpectedManifest;
  }

  /** The checks on the report alone, which fire whatever the release. */
  lemma ReportChecks(r: Option<Release>, i: Integrity)
    ensures CheckAt(10) == ManifestSignatureInvalid && CheckAt(11) == BusinessIntegrityFailed
    ensures CheckAt(12) == DbEncryptionFailed && CheckAt(13) == DebuggerDetected
    ensures CheckAt(14) == SuspiciousModuleLoaded && CheckAt(15) == VmIndicator
    ensures Shows(r, i, CheckAt(10)) == (i.manifestSignatureValid == Some(false))
    ensures Shows(r, i, CheckAt(11)) == BusinessStatusFailed(i.businessStatus)
    ensures Shows(r, i, CheckAt(12)) == DbStatusFailed(i.dbStatus)
    ensures Shows(r, i, CheckAt(13)) == i.debuggerDetected
    ensures Shows(r, i, CheckAt(14)) == (|i.suspiciousModules| > 0)
    ensures Shows(r, i, CheckAt(15)) == (|i.vmIndicators| > 0)
  {
    hide BusinessStatusFailed, DbStatusFailed;
  }

  /** What the checks on a release raise. */
  lemma ReleaseTable(modules: nat)
    ensures SignalFor(modules, AppVersionBlocked) == Signal(85, Denying, AppVersionBlocked)
    ensures SignalFor(modules, AppVersionDeprecated) == Signal(35, Outdated, AppVersionDeprecated)
    ensures SignalFor(modules, BinaryHashMismatch) == Signal(90, Denying, BinaryHashMismatch)
    ensures SignalFor(modules, SignatureMismatch) == Signal(80, Denying, SignatureMismatch)
  {
  }

  lemma ManifestTable(modules: nat)
    ensures SignalFor(modules, BusinessManifestMismatch) == Signal(90, Denying, BusinessManifestMismatch)
    ensures SignalFor(modules, DbSchemaMismatch) == Signal(85, Denying, DbSchemaMismatch)
    ensures SignalFor(modules, DbTablesMismatch) == Signal(85, Denying, DbTablesMismatch)
    ensures SignalFor(modules, AssetManifestMismatch) == Signal(85, Denying, AssetManifestMismatch)
    ensures SignalFor(modules, WorkflowManifestMismatch) == Signal(85, Denying, WorkflowManifestMismatch)
  {
  }

  /** What the checks on the report alone raise. */
  lemma ReportTable(modules: nat)
    ensures SignalFor(modules, ManifestSignatureInvalid) == Signal(90, Denying, ManifestSignatureInvalid)
    ensures SignalFor(modules, BusinessIntegrityFailed) == Signal(85, Denying, BusinessIntegrityFailed)
    ensures SignalFor(modules, DbEncryptionFailed) == Signal(85, Denying, DbEncryptionFailed)
    ensures SignalFor(modules, DebuggerDetected) == Signal(40, Debugged, DebuggerDetected)
    ensures SignalFor(modules, SuspiciousModuleLoaded)
            == Signal(20 + modules * 8, Reviewing, SuspiciousModuleLoaded)
    ensures SignalFor(modules, VmIndicator) == Signal(12, Logged, VmIndicator)
  {
  }

  /** Without a registered release of the reported version only the first check can fire among the first ten. */
  lemma VersionChecks(r: Option<Release>, i: Integrity)
    ensures CheckAt(0) == UnknownAppVersion
    ensures Shows(r, i, CheckAt(0)) == (i.appVersion != "" && r.None?)
    ensures i.appVersion == "" || r.None? ==>
              forall k: nat | 1 <= k < 10 :: !Shows(r, i, CheckAt(k))
    ensures SignalFor(|i.suspiciousModules|, UnknownAppVersion)
            == Signal(20, Reviewing, UnknownAppVersion)
  {
    hide BusinessStatusFailed, DbStatusFailed;
  }

  lemma NothingChecked(w: World, s: Subject, r: Option<Release>, i: Integrity)
    ensures Checked(w, w, s, r, i, 0, Tally(10, false, []))
  {
  }

  /** Checks m to n of a report that shows none of their signs change nothing. */
  lemma {:induction false} CheckedSkip(before: World, w: World, s: Subject, r: Option<Release>, i: Integrity,
                                       m: nat, n: nat, t: Tally)
    requires Checked(before, w, s, r, i, m, t) && m <= n
    requires forall k | m <= k < n :: !Shows(r, i, CheckAt(k))
    ensures Checked(before, w, s, r, i, n, t)
    decreases n
  {
    hide Checked, Shows, CheckAt, SignalFor;
    if m < n {
      CheckedSkip(before, w, s, r, i, m, n - 1, t);
      CheckedNext(before, w, w, s, r, i, n - 1, t, t);
    }
  }
}
