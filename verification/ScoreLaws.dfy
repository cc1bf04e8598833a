/** What an integrity report is worth, told sign by sign: its score, level, actions and logged events. */
module ScoreLaws {
  import opened Types
  import opened IntegrityCheck
  import opened Text

  // ----- the signs, in the report's own terms -----

  /** The release of the reported version, where there is one. */
  predicate Registered(release: Option<Release>, i: Integrity) {
    i.appVersion != "" && release.Some?
  }

  /** What a release pins the client must show; what it leaves blank is not looked at. */
  predicate Deviates(pinned: string, shown: string) {
    pinned != "" && !EqualFold(pinned, shown)
  }

  /** Whether the report shows an event's sign. */
  predicate Sign(release: Option<Release>, i: Integrity, e: EventType) {
    match e
    case UnknownAppVersion => i.appVersion != "" && release.None?
    case AppVersionBlocked => Registered(release, i) && release.value.status == "blocked"
    case AppVersionDeprecated => Registered(release, i) && release.value.status == "deprecated"
    case BinaryHashMismatch =>
      Registered(release, i) && i.mainBinaryHash != "" && Deviates(release.value.mainBinaryHash, i.mainBinaryHash)
    case SignatureMismatch =>
      Registered(release, i) && i.signerThumbprint != "" && Deviates(release.value.signerThumbprint, i.signerThumbprint)
    case BusinessManifestMismatch =>
      && Registered(release, i)
      && var manifest := TrimSpace(release.value.businessManifest);
         var resources := TrimSpace(release.value.resourceManifestHash);
         if manifest != "" then Deviates(manifest, i.businessManifest) else Deviates(resources, i.businessManifest)
    case DbSchemaMismatch => Registered(release, i) && Deviates(release.value.dbSchemaHash, i.dbSchemaHash)
    case DbTablesMismatch => Registered(release, i) && Deviates(release.value.dbTablesHash, i.dbTablesHash)
    case AssetManifestMismatch => Registered(release, i) && Deviates(release.value.assetsManifest, i.assetsManifest)
    case WorkflowManifestMismatch =>
      Registered(release, i) && Deviates(release.value.workflowManifest, i.workflowManifest)
    case ManifestSignatureInvalid => i.manifestSignatureValid == Some(false)
    case BusinessIntegrityFailed => Reads(i.businessStatus, ["failed", "invalid", "tampered"])
    case DbEncryptionFailed =>
      Reads(i.dbStatus, ["failed", "error", "key_missing", "key_unavailable", "key_unreadable", "migration_failed",
                         "plaintext", "plaintext_fallback", "disabled"])
    case DebuggerDetected => i.debuggerDetected
    case SuspiciousModuleLoaded => i.suspiciousModules != []
    case VmIndicator => i.vmIndicators != []
    case _ => false
  }

  /** The status, trimmed and in lower case, is one of these. */
  predicate Reads(status: string, words: seq<string>) {
    exists k | 0 <= k < |words| :: words[k] == ToLower(TrimSpace(status))
  }

  /** The points a sign weighs. */
  function Weight(i: Integrity, e: EventType): nat {
    match e
    case UnknownAppVersion => 20
    case AppVersionBlocked => 85
    case AppVersionDeprecated => 35
    case BinaryHashMismatch => 90
    case SignatureMismatch => 80
    case BusinessManifestMismatch => 90
    case DbSchemaMismatch => 85
    case DbTablesMismatch => 85
    case AssetManifestMismatch => 85
    case WorkflowManifestMismatch => 85
    case ManifestSignatureInvalid => 90
    case BusinessIntegrityFailed => 85
    case DbEncryptionFailed => 85
    case DebuggerDetected => 40
    case SuspiciousModuleLoaded => 20 + 8 * |i.suspiciousModules|
    case VmIndicator => 12
    case _ => 0
  }

  function Weighed(release: Option<Release>, i: Integrity, e: EventType): nat {
    if Sign(release, i, e) then Weight(i, e) else 0
  }

  /** All signs together. */
  function Total(release: Option<Release>, i: Integrity): nat {
    Weighed(release, i, UnknownAppVersion) + Weighed(release, i, AppVersionBlocked)
    + Weighed(release, i, AppVersionDeprecated) + Weighed(release, i, BinaryHashMismatch)
    + Weighed(release, i, SignatureMismatch) + Weighed(release, i, BusinessManifestMismatch)
    + Weighed(release, i, DbSchemaMismatch) + Weighed(release, i, DbTablesMismatch)
    + Weighed(release, i, AssetManifestMismatch) + Weighed(release, i, WorkflowManifestMismatch)
    + Weighed(release, i, ManifestSignatureInvalid) + Weighed(release, i, BusinessIntegrityFailed)
    + Weighed(release, i, DbEncryptionFailed) + Weighed(release, i, DebuggerDetected)
    + Weighed(release, i, SuspiciousModuleLoaded) + Weighed(release, i, VmIndicator)
  }

  /** Signs that something is wrong with the client, not just with its surroundings. */
  predicate Damning(e: EventType) {
    e in {AppVersionBlocked, BinaryHashMismatch, SignatureMismatch, BusinessManifestMismatch, DbSchemaMismatch,
          DbTablesMismatch, AssetManifestMismatch, WorkflowManifestMismatch, ManifestSignatureInvalid,
          BusinessIntegrityFailed, DbEncryptionFailed}
  }

  // ----- the evaluator's checks are these -----

  lemma ShowsSign(release: Option<Release>, i: Integrity, k: nat)
    ensures k < CHECKS ==> Shows(release, i, CheckAt(k)) == Sign(release, i, CheckAt(k))
    ensures SignalFor(|i.suspiciousModules|, CheckAt(k)).points == Weight(i, CheckAt(k))
  {
    hide EqualFold, TrimSpace, ToLower, Reads, BusinessStatusFailed, DbStatusFailed;
    StatusReads(i);
  }

  lemma StatusReads(i: Integrity)
    ensures BusinessStatusFailed(i.businessStatus) == Reads(i.businessStatus, ["failed", "invalid", "tampered"])
    ensures DbStatusFailed(i.dbStatus)
            == Reads(i.dbStatus, ["failed", "error", "key_missing", "key_unavailable", "key_unreadable",
                                  "migration_failed", "plaintext", "plaintext_fallback", "disabled"])
  {
    hide TrimSpace, ToLower;
  }

  lemma PointsNext(release: Option<Release>, i: Integrity, k: nat)
    requires k < CHECKS
    ensures Points(RaisedBy(release, i, k + 1))
            == Points(RaisedBy(release, i, k)) + Weighed(release, i, CheckAt(k))
  {
    hide Shows, CheckAt, SignalFor, RaisedBy, Points, Denies, Tags, Sign, Weight;
    RaisedStep(release, i, k + 1);
    ShowsSign(release, i, k);
  }

  lemma PointsTotal(release: Option<Release>, i: Integrity)
    ensures Points(Signals(release, i)) == Total(release, i)
  {
    hide Shows, SignalFor, RaisedBy, Points, Denies, Tags, Weighed;
    RaisedStep(release, i, 0);
    PointsNext(release, i, 0);
    PointsNext(release, i, 1);
    PointsNext(release, i, 2);
    PointsNext(release, i, 3);
    PointsNext(release, i, 4);
    PointsNext(release, i, 5);
    PointsNext(release, i, 6);
    PointsNext(release, i, 7);
    PointsNext(release, i, 8);
    PointsNext(release, i, 9);
    PointsNext(release, i, 10);
    PointsNext(release, i, 11);
    PointsNext(release, i, 12);
    PointsNext(release, i, 13);
    PointsNext(release, i, 14);
    PointsNext(release, i, 15);
  }

  /** The score is ten and the weights of the signs shown, a hundred at most; the level is where the score stands. */
  lemma ScoreTells(release: Option<Release>, i: Integrity)
    ensures var r := Assess(Signals(release, i));
            && r.score == (if 10 + Total(release, i) > 100 then 100 else 10 + Total(release, i))
            && (r.level == High <==> r.score >= 80)
            && (r.level == Low <==> r.score < 45)
  {
    hide Total, Signals, Points, Tags, Denies, Unique;
    PointsTotal(release, i);
  }

  // ----- what follows from a sign -----

  /** What a sign calls for, and how its event is logged. */
  datatype Handling = Handling(calls: set<Action>, severity: Severity, action: EventAction)

  function HandlingOf(e: EventType): Handling {
    if Damning(e) then Handling({Deny}, High, DenyAction)
    else match e
      case AppVersionDeprecated => Handling({ShortenTtl, UpdateRecommended}, Medium, ChallengeAction)
      case DebuggerDetected => Handling({ShortenTtl}, Medium, ChallengeAction)
      case VmIndicator => Handling({LogOnly}, Low, AllowAction)
      case _ => Handling({Review}, Medium, ReviewAction)
  }

  /** Some sign shown calls for the action. */
  ghost predicate CalledFor(release: Option<Release>, i: Integrity, x: Action) {
    exists e :: Sign(release, i, e) && x in HandlingOf(e).calls
  }

  ghost predicate NoSign(release: Option<Release>, i: Integrity) {
    forall e :: !Sign(release, i, e)
  }

  ghost predicate NothingDamning(release: Option<Release>, i: Integrity) {
    forall e | Damning(e) :: !Sign(release, i, e)
  }

  /** The place of an event among the checks; the other events are not the evaluator's. */
  function PlaceOf(e: EventType): (k: nat)
    ensures k < CHECKS ==> CheckAt(k) == e
  {
    match e
    case UnknownAppVersion => 0
    case AppVersionBlocked => 1
    case AppVersionDeprecated => 2
    case BinaryHashMismatch => 3
    case SignatureMismatch => 4
    case BusinessManifestMismatch => 5
    case DbSchemaMismatch => 6
    case DbTablesMismatch => 7
    case AssetManifestMismatch => 8
    case WorkflowManifestMismatch => 9
    case ManifestSignatureInvalid => 10
    case BusinessIntegrityFailed => 11
    case DbEncryptionFailed => 12
    case DebuggerDetected => 13
    case SuspiciousModuleLoaded => 14
    case VmIndicator => 15
    case _ => CHECKS
  }

  lemma SignPlaced(release: Option<Release>, i: Integrity, e: EventType)
    requires Sign(release, i, e)
    ensures PlaceOf(e) < CHECKS
  {
  }

  lemma Handled(modules: nat, k: nat)
    requires k < CHECKS
    ensures var s, h := SignalFor(modules, CheckAt(k)), HandlingOf(CheckAt(k));
            && s.eventType == CheckAt(k) && s.answer.Severity() == h.severity && s.answer.EventAction() == h.action
            && (s.answer.Denying? <==> Damning(CheckAt(k)))
            && forall x :: x in s.answer.Tags() <==> x in h.calls
    ensures PlaceOf(CheckAt(k)) == k
  {
  }

  /** The tags collected by the first k checks. */
  lemma {:induction false} TagsSoFar(release: Option<Release>, i: Integrity, k: nat, x: Action)
    requires k <= CHECKS
    ensures x in Tags(RaisedBy(release, i, k))
            <==> exists j: nat | j < k :: Sign(release, i, CheckAt(j)) && x in HandlingOf(CheckAt(j)).calls
  {
    hide Shows, CheckAt, SignalFor, RaisedBy, Points, Denies, Tags, Sign, HandlingOf;
    RaisedStep(release, i, k);
    if k > 0 {
      TagsSoFar(release, i, k - 1, x);
      ShowsSign(release, i, k - 1);
      Handled(|i.suspiciousModules|, k - 1);
    }
  }

  lemma TagsCalledFor(release: Option<Release>, i: Integrity, x: Action)
    ensures x in Tags(Signals(release, i)) <==> CalledFor(release, i, x)
  {
    hide Shows, CheckAt, RaisedBy, Tags, Sign, HandlingOf;
    TagsSoFar(release, i, CHECKS, x);
    if e :| Sign(release, i, e) && x in HandlingOf(e).calls {
      SignPlaced(release, i, e);
      assert CheckAt(PlaceOf(e)) == e;
    }
  }

  lemma DeniesDamning(release: Option<Release>, i: Integrity)
    ensures Denies(Signals(release, i)) <==> !NothingDamning(release, i)
  {
    hide Shows, RaisedBy, Tags, Sign, Denies, Unique, Points;
    DenialIsConsistent(release, i);
    TagsCalledFor(release, i, Deny);
    RaisedWeighty(release, i, CHECKS);
    TagsFacts(Signals(release, i));
    assert forall e :: Deny in HandlingOf(e).calls <==> Damning(e);
  }

  lemma NothingRaised(release: Option<Release>, i: Integrity)
    ensures Tags(Signals(release, i)) == [] <==> NoSign(release, i)
  {
    hide Shows, RaisedBy, Tags, Sign, Signals;
    var tags := Tags(Signals(release, i));
    forall x ensures x in tags <==> CalledFor(release, i, x) {
      TagsCalledFor(release, i, x);
    }
    if tags != [] {
      assert tags[0] in tags;
    }
    if e :| Sign(release, i, e) {
      var x :| x in HandlingOf(e).calls;
      assert CalledFor(release, i, x);
    }
  }

  /**
   The actions answered are those the signs call for; a high score without a damning sign calls for a shorter
   lifetime as well; where there is no sign at all, the client is let be.
   */
  lemma ActionsTell(release: Option<Release>, i: Integrity, x: Action)
    ensures var r := Assess(Signals(release, i));
            x in r.actions
            <==> || CalledFor(release, i, x)
                 || (x == ShortenTtl && r.level == High && NothingDamning(release, i))
                 || (x == Allow && NoSign(release, i))
  {
    hide Points, Tags, Denies, Unique, Signals, CalledFor, NoSign, NothingDamning;
    TagsCalledFor(release, i, x);
    DeniesDamning(release, i);
    NothingRaised(release, i);
  }

  // ----- the signals, one for each sign -----

  /** The signal a sign raises. */
  predicate RaisedFor(i: Integrity, s: Signal, e: EventType) {
    && s.eventType == e && s.points == Weight(i, e)
    && s.answer.Severity() == HandlingOf(e).severity && s.answer.EventAction() == HandlingOf(e).action
  }

  lemma {:induction false} SignalsSoFar(release: Option<Release>, i: Integrity, k: nat)
    requires k <= CHECKS
    ensures var signals := RaisedBy(release, i, k);
            && (forall s | s in signals :: Sign(release, i, s.eventType) && RaisedFor(i, s, s.eventType)
                                           && PlaceOf(s.eventType) < k)
            && (forall j: nat | j < k && Sign(release, i, CheckAt(j)) ::
                  exists s | s in signals :: s.eventType == CheckAt(j))
            && (forall a, b | 0 <= a < b < |signals| :: signals[a].eventType != signals[b].eventType)
  {
    hide Shows, CheckAt, SignalFor, RaisedBy, Points, Denies, Tags, Sign, HandlingOf, Weight;
    RaisedStep(release, i, k);
    if k > 0 {
      SignalsSoFar(release, i, k - 1);
      ShowsSign(release, i, k - 1);
      Handled(|i.suspiciousModules|, k - 1);
    }
  }

  /** Each sign shown raises its one signal, and nothing else does. */
  lemma SignalsTell(release: Option<Release>, i: Integrity)
    ensures var signals := Signals(release, i);
            && (forall e :: Sign(release, i, e) <==> exists s | s in signals :: s.eventType == e)
            && (forall s | s in signals :: RaisedFor(i, s, s.eventType))
            && (forall a, b | 0 <= a < b < |signals| :: signals[a].eventType != signals[b].eventType)
  {
    hide Shows, CheckAt, RaisedBy, Sign, RaisedFor;
    SignalsSoFar(release, i, CHECKS);
    forall e | Sign(release, i, e) ensures exists s | s in Signals(release, i) :: s.eventType == e {
      SignPlaced(release, i, e);
      assert CheckAt(PlaceOf(e)) == e;
    }
  }

  /** A report is refused if and only if it shows a damning sign. */
  lemma RefusedIff(release: Option<Release>, i: Integrity)
    ensures Refused(release, i) <==> exists e :: Damning(e) && Sign(release, i, e)
  {
    hide Refused, Denies, Signals, Sign;
    DeniedIff(release, i);
    DeniesDamning(release, i);
  }
}
