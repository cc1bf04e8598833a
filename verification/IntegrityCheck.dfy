/** Scoring a client's integrity report against the release it claims to be. */
module IntegrityCheck {
  import opened Types
  import opened Text

  datatype Action = Allow | Deny | Review | ShortenTtl | UpdateRecommended | LogOnly

  datatype RiskResult = RiskResult(level: Severity, score: int, actions: seq<Action>)

  /** The ways a check that fires is answered. */
  datatype Answer = Denying | Reviewing | Outdated | Debugged | Logged {
    function Tags(): seq<Action> {
      match this
      case Denying => [Deny]
      case Reviewing => [Review]
      case Outdated => [ShortenTtl, UpdateRecommended]
      case Debugged => [ShortenTtl]
      case Logged => [LogOnly]
    }

    function Severity(): Severity {
      match this
      case Denying => High
      case Logged => Low
      case _ => Medium
    }

    function EventAction(): EventAction {
      match this
      case Denying => DenyAction
      case Reviewing => ReviewAction
      case Logged => AllowAction
      case _ => ChallengeAction
    }
  }

  /** One thing the evaluator noticed: what it adds to the score, how it is answered, and the event it logs. */
  datatype Signal = Signal(points: nat, answer: Answer, eventType: EventType)

  function ExpectedManifest(r: Release): string {
    if TrimSpace(r.businessManifest) != "" then TrimSpace(r.businessManifest) else TrimSpace(r.resourceManifestHash)
  }

  /** Compared only when both sides are given. */
  predicate Differs(expected: string, actual: string) {
    expected != "" && actual != "" && !EqualFold(expected, actual)
  }

  /** Compared whenever the release pins a value; leaving it out counts as a mismatch. */
  predicate Misses(expected: string, actual: string) {
    expected != "" && !EqualFold(expected, actual)
  }

  predicate BusinessStatusFailed(status: string) {
    ToLower(TrimSpace(status)) in ["failed", "invalid", "tampered"]
  }

  predicate DbStatusFailed(status: string) {
    ToLower(TrimSpace(status)) in
      ["failed", "error", "key_missing", "key_unavailable", "key_unreadable", "migration_failed", "plaintext",
       "plaintext_fallback", "disabled"]
  }

  /** Whether a report gives cause for an event; `release` is the registered release of the reported version, if any. */
  predicate Shows(release: Option<Release>, i: Integrity, e: EventType) {
    if i.appVersion != "" && release.Some? && ReleaseShows(release.value, i, e) then true
    else match e
      case UnknownAppVersion => i.appVersion != "" && release.None?
      case ManifestSignatureInvalid => i.manifestSignatureValid == Some(false)
      case BusinessIntegrityFailed => BusinessStatusFailed(i.businessStatus)
      case DbEncryptionFailed => DbStatusFailed(i.dbStatus)
      case DebuggerDetected => i.debuggerDetected
      case SuspiciousModuleLoaded => |i.suspiciousModules| > 0
      case VmIndicator => |i.vmIndicators| > 0
      case _ => false
  }

  predicate ReleaseShows(r: Release, i: Integrity, e: EventType) {
    match e
    case AppVersionBlocked => r.status == "blocked"
    case AppVersionDeprecated => r.status == "deprecated"
    case BinaryHashMismatch => Differs(r.mainBinaryHash, i.mainBinaryHash)
    case SignatureMismatch => Differs(r.signerThumbprint, i.signerThumbprint)
    case BusinessManifestMismatch => Misses(ExpectedManifest(r), i.businessManifest)
    case DbSchemaMismatch => Misses(r.dbSchemaHash, i.dbSchemaHash)
    case DbTablesMismatch => Misses(r.dbTablesHash, i.dbTablesHash)
    case AssetManifestMismatch => Misses(r.assetsManifest, i.assetsManifest)
    case WorkflowManifestMismatch => Misses(r.workflowManifest, i.workflowManifest)
    case _ => false
  }

  /** What the check for an event raises; only the module check weighs by number. */
  function SignalFor(modules: nat, e: EventType): Signal {
    match e
    case UnknownAppVersion => Signal(20, Reviewing, e)
    case AppVersionDeprecated => Signal(35, Outdated, e)
    case BinaryHashMismatch => Signal(90, Denying, e)
    case SignatureMismatch => Signal(80, Denying, e)
    case BusinessManifestMismatch => Signal(90, Denying, e)
    case ManifestSignatureInvalid => Signal(90, Denying, e)
    case DebuggerDetected => Signal(40, Debugged, e)
    case SuspiciousModuleLoaded => Signal(20 + modules * 8, Reviewing, e)
    case VmIndicator => Signal(12, Logged, e)
    case _ => Signal(85, Denying, e)
  }

  const CHECKS := 16

  /** The order in which the checks are made. */
  function CheckAt(k: nat): EventType {
    match k
    case 0 => UnknownAppVersion
    case 1 => AppVersionBlocked
    case 2 => AppVersionDeprecated
    case 3 => BinaryHashMismatch
    case 4 => SignatureMismatch
    case 5 => BusinessManifestMismatch
    case 6 => DbSchemaMismatch
    case 7 => DbTablesMismatch
    case 8 => AssetManifestMismatch
    case 9 => WorkflowManifestMismatch
    case 10 => ManifestSignatureInvalid
    case 11 => BusinessIntegrityFailed
    case 12 => DbEncryptionFailed
    case 13 => DebuggerDetected
    case 14 => SuspiciousModuleLoaded
    case _ => VmIndicator
  }

  /** What the first k checks raise. */
  function RaisedBy(release: Option<Release>, i: Integrity, k: nat): seq<Signal> {
    if k == 0 then []
    else
      var e := CheckAt(k - 1);
      RaisedBy(release, i, k - 1)
      + (if Shows(release, i, e) then [SignalFor(|i.suspiciousModules|, e)] else [])
  }

  function Signals(release: Option<Release>, i: Integrity): seq<Signal> {
    RaisedBy(release, i, CHECKS)
  }

  // ----- summing up -----

  function Points(signals: seq<Signal>): nat {
    if signals == [] then 0 else Points(signals[..|signals| - 1]) + signals[|signals| - 1].points
  }

  function Tags(signals: seq<Signal>): seq<Action> {
    if signals == [] then [] else Tags(signals[..|signals| - 1]) + signals[|signals| - 1].answer.Tags()
  }

  predicate Denies(signals: seq<Signal>) {
    exists s | s in signals :: s.answer.Denying?
  }

  function LevelOf(score: int): Severity {
    if score >= 80 then High else if score >= 45 then Medium else Low
  }

  function Unique(items: seq<Action>): (r: seq<Action>)
    ensures forall x :: x in r <==> x in items
    ensures forall i, j | 0 <= i < j < |r| :: r[i] != r[j]
  {
    if items == [] then []
    else
      var r := Unique(items[..|items| - 1]);
      if items[|items| - 1] in r then r else r + [items[|items| - 1]]
  }

  function FinalActions(tags: seq<Action>, level: Severity, deny: bool): seq<Action> {
    (if tags == [] then [Allow] else tags) + (if level == High && !deny then [ShortenTtl] else [])
  }

  function Capped(points: nat): int {
    if 10 + points > 100 then 100 else 10 + points
  }

  /** The verdict on what was noticed. */
  function Assess(signals: seq<Signal>): RiskResult {
    var score := Capped(Points(signals));
    RiskResult(LevelOf(score), score, Unique(FinalActions(Tags(signals), LevelOf(score), Denies(signals))))
  }

  /** A denying signal weighs enough to reach the top level on its own. */
  predicate Weighty(s: Signal) {
    s.answer.Denying? ==> s.points >= 80
  }

  lemma {:induction false} RaisedWeighty(release: Option<Release>, i: Integrity, k: nat)
    ensures forall s | s in RaisedBy(release, i, k) :: Weighty(s)
  {
    hide Shows, CheckAt, SignalFor, Weighty, RaisedBy, Points, Tags, Denies;
    RaisedStep(release, i, k);
    if k > 0 {
      RaisedWeighty(release, i, k - 1);
      SignalWeighty(|i.suspiciousModules|, CheckAt(k - 1));
    }
  }

  lemma SignalWeighty(modules: nat, e: EventType)
    ensures Weighty(SignalFor(modules, e))
  {
  }

  /** What one more signal adds. */
  lemma SignalsSnoc(signals: seq<Signal>, s: Signal)
    ensures Points(signals + [s]) == Points(signals) + s.points
    ensures Tags(signals + [s]) == Tags(signals) + s.answer.Tags()
    ensures Denies(signals + [s]) <==> Denies(signals) || s.answer.Denying?
  {
    var all := signals + [s];
    assert all[..|signals|] == signals;
    assert all[|signals|] == s;
    assert forall x :: x in all <==> x in signals || x == s;
  }

  lemma {:induction false} TagsFacts(signals: seq<Signal>)
    requires forall s | s in signals :: Weighty(s)
    ensures Deny in Tags(signals) <==> Denies(signals)
    ensures Denies(signals) ==> Points(signals) >= 80
    ensures Tags(signals) == [] <==> signals == []
    ensures Allow !in Tags(signals)
  {
    if signals == [] {
    } else {
      hide Points, Tags, Denies;
      var n := |signals| - 1;
      var before, s := signals[..n], signals[n];
      TagsFacts(before);
      assert signals == before + [s];
      SignalsSnoc(before, s);
      AnswerTags(s.answer);
      assert s in signals;
    }
  }

  lemma AnswerTags(a: Answer)
    ensures Deny in a.Tags() <==> a.Denying?
    ensures a.Tags() != [] && Allow !in a.Tags()
  {
  }

  /** Denial, its action and its logged event always come together, and only with a high score. */
  lemma DenialIsConsistent(release: Option<Release>, i: Integrity)
    ensures var signals := Signals(release, i);
            var r := Assess(signals);
            && (Denies(signals) <==> Deny in r.actions)
            && (Denies(signals) <==> exists s | s in signals :: s.answer.EventAction() == DenyAction)
            && (Denies(signals) ==> r.score >= 90 && r.level == High)
            && 10 <= r.score <= 100
            && r.actions != []
            && (forall j, k | 0 <= j < k < |r.actions| :: r.actions[j] != r.actions[k])
            && (Allow in r.actions <==> signals == [])
  {
    hide RaisedBy, Tags, Unique;
    var signals := Signals(release, i);
    RaisedWeighty(release, i, CHECKS);
    TagsFacts(signals);
    var r := Assess(signals);
    var final := FinalActions(Tags(signals), r.level, Denies(signals));
    assert final[0] in final;
    assert forall s: Signal :: s.answer.Denying? <==> s.answer.EventAction() == DenyAction;
  }

  /** A report with nothing to say against it is let through at the lowest score. */
  lemma CleanReport(release: Option<Release>, i: Integrity)
    requires Signals(release, i) == []
    ensures Assess(Signals(release, i)) == RiskResult(Low, 10, [Allow])
  {
    assert [Allow] + [] == [Allow];
    assert [Allow][..0] == [];
    assert Unique([Allow]) == [Allow];
  }

  /** A check that shows and denies. */
  predicate DenyingCheck(release: Option<Release>, i: Integrity, j: nat) {
    Shows(release, i, CheckAt(j)) && SignalFor(|i.suspiciousModules|, CheckAt(j)).answer.Denying?
  }

  /** A denying signal is among those raised exactly when a denying check shows. */
  lemma {:induction false} RaisedMeans(release: Option<Release>, i: Integrity, k: nat)
    ensures Denies(RaisedBy(release, i, k))
            <==> exists j: nat | j < k :: DenyingCheck(release, i, j)
  {
    hide Shows, CheckAt, SignalFor, RaisedBy, Points, Denies, Tags;
    RaisedStep(release, i, k);
    if k > 0 {
      RaisedMeans(release, i, k - 1);
      assert DenyingCheck(release, i, k - 1)
             <==> Shows(release, i, CheckAt(k - 1)) && SignalFor(|i.suspiciousModules|, CheckAt(k - 1)).answer.Denying?;
    }
  }

  /** The reasons for which a report is refused, told without the scoring. */
  predicate Refused(release: Option<Release>, i: Integrity) {
    || (i.appVersion != "" && release.Some?
        && var r := release.value;
           || r.status == "blocked"
           || Differs(r.mainBinaryHash, i.mainBinaryHash)
           || Differs(r.signerThumbprint, i.signerThumbprint)
           || Misses(ExpectedManifest(r), i.businessManifest)
           || Misses(r.dbSchemaHash, i.dbSchemaHash)
           || Misses(r.dbTablesHash, i.dbTablesHash)
           || Misses(r.assetsManifest, i.assetsManifest)
           || Misses(r.workflowManifest, i.workflowManifest))
    || i.manifestSignatureValid == Some(false)
    || BusinessStatusFailed(i.businessStatus)
    || DbStatusFailed(i.dbStatus)
  }

  /** A denying check, if any shows, is one of the reasons, and each reason has its check. */
  lemma RefusedShows(release: Option<Release>, i: Integrity, j: nat)
    ensures j < CHECKS && DenyingCheck(release, i, j) ==> Refused(release, i)
  {
    hide Differs, Misses, ExpectedManifest, BusinessStatusFailed, DbStatusFailed;
  }

  lemma RefusedHasCheck(release: Option<Release>, i: Integrity) returns (j: nat)
    requires Refused(release, i)
    ensures j < CHECKS && DenyingCheck(release, i, j)
  {
    hide Differs, Misses, ExpectedManifest, BusinessStatusFailed, DbStatusFailed;
    if i.manifestSignatureValid == Some(false) {
      j := 10;
    } else if BusinessStatusFailed(i.businessStatus) {
      j := 11;
    } else if DbStatusFailed(i.dbStatus) {
      j := 12;
    } else {
      var r := release.value;
      j := if r.status == "blocked" then 1
           else if Differs(r.mainBinaryHash, i.mainBinaryHash) then 3
           else if Differs(r.signerThumbprint, i.signerThumbprint) then 4
           else if Misses(ExpectedManifest(r), i.businessManifest) then 5
           else if Misses(r.dbSchemaHash, i.dbSchemaHash) then 6
           else if Misses(r.dbTablesHash, i.dbTablesHash) then 7
           else if Misses(r.assetsManifest, i.assetsManifest) then 8
           else 9;
    }
  }

  /**
   Denial, computed along sixteen checks, is the plain list of reasons: unknown versions, debuggers, modules and
   virtual machines never deny.
   */
  lemma DeniedIff(release: Option<Release>, i: Integrity)
    ensures Denies(Signals(release, i)) <==> Refused(release, i)
  {
    hide DenyingCheck, RaisedBy, Denies, Refused;
    RaisedMeans(release, i, CHECKS);
    if Refused(release, i) {
      var j := RefusedHasCheck(release, i);
    }
    if j: nat :| j < CHECKS && DenyingCheck(release, i, j) {
      RefusedShows(release, i, j);
    }
  }

  // ----- worse reports never score better -----

  /** Every sign the first report shows the second shows too, with no fewer suspicious modules. */
  ghost predicate NoWorse(r: Option<Release>, i: Integrity, r': Option<Release>, i': Integrity) {
    && (forall e :: Shows(r, i, e) ==> Shows(r', i', e))
    && |i.suspiciousModules| <= |i'.suspiciousModules|
  }

  lemma {:induction false} RaisedMonotone(r: Option<Release>, i: Integrity, r': Option<Release>, i': Integrity, k: nat)
    requires NoWorse(r, i, r', i')
    ensures Points(RaisedBy(r, i, k)) <= Points(RaisedBy(r', i', k))
    ensures Denies(RaisedBy(r, i, k)) ==> Denies(RaisedBy(r', i', k))
  {
    hide Shows, CheckAt, SignalFor, RaisedBy, Points, Denies, Tags;
    RaisedStep(r, i, k);
    RaisedStep(r', i', k);
    if k > 0 {
      RaisedMonotone(r, i, r', i', k - 1);
      SignalMonotone(|i.suspiciousModules|, |i'.suspiciousModules|, CheckAt(k - 1));
    }
  }

  lemma SignalMonotone(m: nat, n: nat, e: EventType)
    requires m <= n
    ensures SignalFor(m, e).points <= SignalFor(n, e).points
    ensures SignalFor(m, e).answer == SignalFor(n, e).answer
  {
  }

  /** What the last of the first k checks adds. */
  lemma RaisedStep(release: Option<Release>, i: Integrity, k: nat)
    ensures var now := RaisedBy(release, i, k);
            if k == 0 then now == [] && Points(now) == 0 && !Denies(now) && Tags(now) == []
            else
              var before := RaisedBy(release, i, k - 1);
              var s := SignalFor(|i.suspiciousModules|, CheckAt(k - 1));
              if Shows(release, i, CheckAt(k - 1)) then
                && now == before + [s]
                && Points(now) == Points(before) + s.points
                && Tags(now) == Tags(before) + s.answer.Tags()
                && (Denies(now) <==> Denies(before) || s.answer.Denying?)
              else now == before
  {
    hide Shows, CheckAt, SignalFor;
    if k > 0 {
      if Shows(release, i, CheckAt(k - 1)) {
        SignalsSnoc(RaisedBy(release, i, k - 1), SignalFor(|i.suspiciousModules|, CheckAt(k - 1)));
      } else {
        assert RaisedBy(release, i, k - 1) + [] == RaisedBy(release, i, k - 1);
      }
    }
  }

  /** Switching on further bad signs never lowers the score or the level, and never clears a denial. */
  lemma WorseNeverBetter(r: Option<Release>, i: Integrity, r': Option<Release>, i': Integrity)
    requires NoWorse(r, i, r', i')
    ensures var a, b := Assess(Signals(r, i)), Assess(Signals(r', i'));
            && a.score <= b.score
            && (a.level == High ==> b.level == High)
            && (a.level == Medium ==> b.level != Low)
            && (Deny in a.actions ==> Deny in b.actions)
  {
    RaisedMonotone(r, i, r', i', CHECKS);
    DenialIsConsistent(r, i);
    DenialIsConsistent(r', i');
  }
}
