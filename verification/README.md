# License Guard, verified

A Dafny model of the License Guard core: the licence server that activates, verifies and supervises client
installations, the client library that decides offline from what it cached, and the migration runner's SQL splitter.

One `Server` keeps applications, releases, licences, devices, activations, capability policies, risk events, audit logs,
one-time challenges and a failure limiter. Client requests (challenge, activate, verify, heartbeat, capability check,
deactivate) and admin requests are steps over that state.

## How it is built

| files | what they hold |
|---|---|
| `Types`, `Text`, `Lookup`, `Sorting`, `World` | stored records, strings, first-match searches, the whole state as a value and its edits |
| `RateLimit`, `Challenges`, `Tokens`, `IntegrityCheck`, `Policies`, `Releases`, `Versions`, `AuditMetadata` | one concern each: what the code computes, and its own laws |
| `OfflineSdk` | the client library's decision from its cache |
| `Verification`, `Steps`, `Machine` | every request as a step from state to state, and runs: lists of timed calls under a clock that never runs backwards |
| `Invariants`, `StepInvariants`, `Frames`, `VerifyLaws` | what every step keeps, which parts of the state it can change at all, and the whole effect of a verification |
| `DecisionLaws`, `StandingLaws`, `ActivationLaws`, `LimitLaws`, `GrantLaws`, `ChallengeLaws`, `LimiterLaws`, `RecordLaws`, `FilingLaws`, `BlockingLaws`, `AdminLaws`, `Diagnostics` | theorems over all states and all runs |
| `ScoreLaws`, `ReplyLaws`, `EffectLaws`, `OrderLaws`, `LifetimeLaws`, `ClientLaws`, `AuditLaws`, `AdminAnswers`, `PolicyLaws`, `SpaceLaws` | what every request is answered and what it leaves behind, told from the records stored and the request alone, in no term of the functions that compute it |
| `Witnesses` | runs from an empty server that show where the code departs from what is expected of it |
| `Evaluation` | the integrity evaluator's running total, check by check |
| `Server` | the server as an object whose methods update its fields in place with the loops and early returns of the code, each proved to do exactly the machine's step; its ghost `run` makes the run theorems theorems about the object, as its last lemmas show |
| `SqlSplitter`, `SqlSplitterLaws`, `SqlLexemes` | the splitter's loop against a mode automaton, the laws of splitting, and what it means for a text given as lexemes |

`dafny verify dfyconfig.toml` checks everything.

## What the proofs found

Each departure has its exact condition; the first five are shown by runs from an empty server (`Witnesses`).

- A re-activation does not recount devices, so a licence for one device can have two: activate a device, deactivate it,
  activate another, activate the first again. `docs/01-development-implementation-plan.md` line 511 expects activation over
  the device limit to be refused. `OverLimitIff` says exactly which requests exceed it, `DeviceLimit` by how much at most.
- An application can be named by its key or by its ID, and what an admin files under the ID is lost to the clients. A
  licence filed there can never be used; SDK keys, policies, licences and releases filed there break the schema's references
  to application keys, exactly then and for good (`ReferencesIff`); rotating by one name leaves an active key filed under the
  other (`RotationLeavesOneIff`); a version blocked there blocks nobody (`BlockedByIdBlocksNobody`).
- The diagnostic compares a licence's application with the name it was given, verification with the application's key. What
  is reported fine always passes; named by its ID, an application in order is reported as a mismatch for a client that
  passes, and that is the only disagreement (`DisagreementIff`).
- The online capability check trims the name it is asked about, the client's bundle lookup does not
  (`BundleAgreesOnline`).
- A diagnosed device without an activation of the licence is reported with another device's activation, and can be found
  fine in everything (`ActivationReported`).
- Sweeping expired challenges changes the wording of a refusal, never the refusal (`SweepChangesWordingIff`).
- An activation is left active even when the integrity check then denies the request (`VerifyEffect`).
- A version number beyond 64 bits wraps around when it is parsed (`ParsePrintIff`).

## Modelling choices

- Time is an integer of nanoseconds passed to each call; within one request the clock is read once. Token lifetimes are
  proved for three separate readings.
- A hash is the text it was made from, so distinct texts never collide. A signature is membership in the set of claims
  signed. Identifiers come from a counter; an application's identifier, a licence key and a nonce are parameters.
- Every operation is one step. The challenge handler's two critical sections, and the reads made before the lock is taken
  when a licence is created, are part of their step.
- The checksum that places a device in a rollout is a function parameter. Sorting is a stable insertion sort;
  `LatestUpToTies` shows that ties are all it decides.
- Case folding is ASCII; white space is as Go has it. The splitter works on bytes with Go's UTF-8 white space.
- Go's zero time is its own instant, before every reading of the clock.
- The two database mismatches, which share one event name in the server, are told apart.
- The object's requests are named by the command they serve; long handlers are split into a method per stage.

## Model

| member | source | states |
|---|---|---|
| `DecisionLaws.GrantedIff` | internal/licensecore/server.go:1524-1704 | In every state that keeps the invariant, a request is granted if and only if `Deserves`: not limited, nothing blank, a live matching challenge, the application active, the presented licence its own, active and unexpired, the device not blocked, a token for exactly this device with its activation on (or, by key, a known pair or room for one more), and no reason of refusal in the report. `Deserves` is stated without any of the gate functions |
| `DecisionLaws.EveryDecision` | internal/licensecore/server.go:1524-1704 | The same equivalence for every activate and verify call of every run |
| `VerifyLaws.VerifyEffect` | internal/licensecore/server.go:1545-1704 | The whole effect of a request on activations, tokens, limiter record, challenge table and policies, granted or not: past all gates exactly its own pair is left active, even when integrity then denies it; otherwise activations and issued tokens are untouched |
| `GrantLaws.EveryGrantIsSound` | internal/licensecore/server.go:1554-1703 | Every grant in every run consumed a live challenge for its own application, installation and nonce; its claims name exactly the active application, an active unexpired licence with its entitlements, and the unblocked device presented, whose activation is active afterwards |
| `GrantLaws.NoGrantAfterExpiry` | internal/licensecore/server.go:1589-1594 | Once the clock passes a licence's expiry no later call of the run, whatever came between (a resume included), is granted for it |
| `GrantLaws.NoGrantForRefusedVersion` | internal/licensecore/server.go:1712-1723 | No run grants a request whose reported version has a blocked release row filed under the application's key, or which shows any other reason of refusal |
| `GrantLaws.HeldUnderOtherName` | internal/licensecore/server.go:1581-1584 | A licence held under a name that is no application's key (its ID, which licence creation accepts) is never granted anything |
| `ActivationLaws.PassedMeans` | internal/licensecore/server.go:1558-1634 | What a request that passes all gates has shown, by key or by token, including room under the limit when its device is new to the licence |
| `ActivationLaws.Revival` | internal/licensecore/server.go:1564-1644 | A step switches a non-active activation on only if it is a licence-key request, past limiter and challenge, for exactly that licence and device, with the licence active and unexpired and the device not blocked |
| `ActivationLaws.OffUntilKeyRequest` | internal/licensecore/server.go:1616-1644 | An activation once unbound, deactivated or blocked stays off in every run, and every token for it is refused by verify and by the capability check, until a licence-key request names exactly its licence and device |
| `ActivationLaws.InactiveTokenRefused` | internal/licensecore/server.go:1616-1621 | A token whose activation is not active is neither granted a verification nor decided a capability |
| `Frames.OthersSwitchNothingOn` | internal/licensecore/server.go:964-1058 | No request but activate and verify switches an activation on or signs a token |
| `Frames.StepFrame` | internal/licensecore/server.go:399-1704 | Which of the sixteen parts of the state a request of each kind can change; everything else stays as it was, for every request and every state |
| `LimitLaws.DeviceLimit` | internal/licensecore/server.go:1624-1644 | In every run a licence has at most max(its limit, what the run began with) distinct active devices, plus one for each call that switched a stored activation of it back on |
| `LimitLaws.DeviceLimitWithoutReactivations` | internal/licensecore/server.go:1624-1644 | From within the limit, a run none of whose calls is such a request, judged on the state it is made in, never exceeds it |
| `LimitLaws.DeviceLimitUntilSwitchedOff` | internal/licensecore/server.go:1624-1644 | From within the limit and all activations on, a run whose requests revoke not the licence, unbind no device and deactivate none of its tokens never exceeds it |
| `LimitLaws.OverLimitIff` | internal/licensecore/server.go:1623-1644 | From within its limit, a step takes a licence over it if and only if the limit is reached and the request, as can be checked beforehand, is an admitted one with the licence's key, for an active unexpired licence, from a known unblocked device whose stored activation is off |
| `LimitLaws.RevivesIff` | internal/licensecore/server.go:1564-1644 | A step switches an activation of a licence back on if and only if its request is such a one |
| `LimitLaws.RevivalIgnoresLimit` | internal/licensecore/server.go:1641-1644 | Switching back on always counts exactly one more device, whatever the limit |
| `Witnesses.LimitCanBeExceeded` | internal/licensecore/server.go:1641-1644 | A run of nine calls from an empty server that leaves two active devices on a licence for one |
| `StandingLaws.TokenDeadAfter` | internal/licensecore/server.go:996-1000 | A token signed before its licence was revoked, its device unbound or its activation deactivated is refused from then on by verify and the capability check, in every run, a resume of the licence included, until a licence-key request for exactly that licence and device |
| `StandingLaws.InertUntilResumed` | internal/licensecore/server.go:987-995 | A licence once revoked, suspended or expired gets no grant and no capability decision from any request of a run until an admin resumes it |
| `StandingLaws.BlockedUntilUnblocked` | internal/licensecore/server.go:1041-1046 | A device once blocked gets no grant under any licence until an admin unblocks it |
| `StandingLaws.StepStands` | internal/licensecore/server.go:964-1065 | Every step: only a resume makes a licence active that was not, only an unblock a device that was blocked |
| `StandingLaws.SwitchesOffWorks` | internal/licensecore/server.go:1482-1487 | Revoking, unbinding and deactivating each leave the token's own activation off |
| `RecordLaws.KeysHold` | migrations/001_initial_schema.sql:68-110 | Every state of every run keeps unique licence and device identifiers, one device per fingerprint, one activation per licence and device, every activation filed under a stored application's key, of a stored device and of a stored licence with that application, one policy per application name and capability, and at most one active SDK key per name filed under |
| `FilingLaws.ReferencesIff` | migrations/001_initial_schema.sql:23-69 | The references of licences, policies, SDK keys and releases to application keys hold after a step if and only if they held before and the step files nothing under an application's ID; broken, they are never repaired |
| `FilingLaws.ReferencesInRuns` | migrations/001_initial_schema.sql:23-69 | In every run they hold at a state if and only if no earlier call filed anything under an ID |
| `FilingLaws.ReferencesFromStart` | migrations/001_initial_schema.sql:23-148 | From an empty server: those of risk events and reports always hold, the others exactly as long as nothing is filed under an ID |
| `FilingLaws.StepFiles` | internal/licensecore/server.go:399-957 | What every step files, under which name, told from the state before it and the request |
| `FilingLaws.LoggedInRuns` | migrations/001_initial_schema.sql:116-148 | In every run risk events and integrity reports, which clients leave behind, refer to application keys |
| `Witnesses.LicenseUnderId` | internal/licensecore/server.go:890-941 | A run of two calls that leaves a licence referring to no application's key |
| `StepInvariants.StepKeeps` | internal/licensecore/server.go:851-1704 | Every request keeps the invariant, and the state only grows: nothing recorded is lost or rewritten |
| `StepInvariants.RunKeeps` | internal/licensecore/server.go:851-1704 | Both over whole runs, between any two of their states |
| `Invariants.BootstrapValid` | internal/licensecore/server.go:2450-2461 | A server started without stored data keeps the invariant |
| `RecordLaws.RecordsStand` | internal/licensecore/server.go:1087-1098 | Audit logs, reports, risk events, devices, licences and activations are append-only by identity; a resolved event never changes again; each event has exactly one `risk.resolve` audit entry if resolved and none if not |
| `FilingLaws.RotationLeavesOneIff` | internal/licensecore/server.go:851-873 | After a rotation the application, by both its names, has exactly one active key if and only if no active key was filed under its other name |
| `RecordLaws.RotationLeavesOne` | internal/licensecore/server.go:864-871 | A rotation retires every key filed under the name it is given, adds one active key there, and touches no other key |
| `Witnesses.RotationByIdLeavesTwo` | internal/licensecore/server.go:851-873 | A run of two calls after which an application has two active keys |
| `RecordLaws.DenialIsLogged` | internal/licensecore/server.go:1706-1857 | A request past its gates is denied for integrity exactly when an event with action "deny" is among those it appends, earlier events being untouched; a denial carries "deny", at least 90 points and level high |
| `RateLimit.RecordExplains` | internal/licensecore/server.go:3790-3800 | The account of a window: it holds exactly the failures since its start, at most the limit, and no stretch one window long holds more than 2N-1 |
| `RateLimit.BoundIsReached` | internal/licensecore/server.go:3779-3800 | The bound 2N-1 is reached, for every limit N and window of two ticks or more |
| `LimiterLaws.SlidingWindowBound` | internal/licensecore/server.go:1526-1557 | In every run, any half-open stretch one window long holds at most 2N-1 recorded failures of one verify or activate caller between two clearings of its record, whatever else happens |
| `LimiterLaws.RecordStep` | internal/licensecore/server.go:1526-1557 | A caller's record changes only by its own failure, recorded when it was not limited |
| `LimiterLaws.LimitedUntilWindowEnds` | internal/licensecore/server.go:1549-1552 | Once limited, a caller stays limited to the end of its window: whatever anyone requests meanwhile, its record stands still and each of its own requests is refused without a trace |
| `ChallengeLaws.AcceptedOnce` | internal/licensecore/server.go:2385-2402 | No challenge is accepted twice in a run |
| `ChallengeLaws.AcceptedAsIssued` | internal/licensecore/server.go:1208-1226 | An accepted challenge was issued earlier in the run for the same application, installation and nonce, at most five minutes before |
| `ChallengeLaws.GoneForGood` | internal/licensecore/server.go:2391-2401 | A challenge once gone never comes back |
| `ChallengeLaws.SweepInvisible` | internal/licensecore/server.go:2385-2413 | In whole runs of the server, sweeping accepts a challenge exactly when the table of a server that never sweeps would |
| `Challenges.SweepUnobservable` | internal/licensecore/server.go:2385-2413 | The same for every sequence of draws and uses of the table alone |
| `Challenges.SweepChangesWordingIff` | internal/licensecore/server.go:2385-2413 | Sweeping changes a verdict if and only if the challenge used is still on the unswept table and some earlier draw or use came after its expiry; it is then "not found" instead of "expired" |
| `Challenges.SweepChangesWording` | internal/licensecore/server.go:2388-2397 | A sequence in which that happens |
| `Tokens.NormalizeIsProjection` | internal/licensecore/server.go:2666-2697 | Normalised settings are within bounds, and settings are left as they are exactly when they were, timestamp included |
| `Tokens.NormalizeIdempotent` | internal/licensecore/server.go:2666-2697 | Normalising what was normalised at any reading of the clock changes nothing, whatever the clock reads then |
| `Tokens.LifetimeBounds` | internal/licensecore/server.go:1659-1675 | Under any stored settings expiry and grace end at most thirty days after issue, and expiry at least five minutes after |
| `Tokens.RiskShortens` | internal/licensecore/server.go:1660-1663 | A riskier client never gets the longer token |
| `OfflineSdk.CachedAuthorization` | sdk/go/licenseguard/token.go:114-175 | The cached decision, field by field, with and without a key |
| `OfflineSdk.AllowedUntil` | sdk/go/licenseguard/token.go:147-174 | With the key, a cache that passes the signature checks is allowed exactly up to the later of its two deadlines |
| `OfflineSdk.RefusedForGood` | sdk/go/licenseguard/token.go:114-196 | An unchanged cache once refused is never allowed again, nor any feature of it, with or without a key |
| `OfflineSdk.OfflineBound` | sdk/go/licenseguard/token.go:114-187 | End to end: a token issued under any stored settings opens the application exactly until its later deadline, at most thirty days from issue, and only its licence's entitlements |
| `GrantLaws.GrantedTokenOffline` | internal/licensecore/server.go:1659-1675 | The same for every token granted in any run |
| `IntegrityCheck.DeniedIff` | internal/licensecore/server.go:1706-1857 | Denial, computed along the evaluator's sixteen checks, is exactly the plain list of reasons `Refused`; unknown or deprecated versions, debuggers, modules and virtual machines never deny |
| `IntegrityCheck.DenialIsConsistent` | internal/licensecore/server.go:1706-1857 | Denial, the action "deny" and an event logged with it come together; then the score is at least 90 and the level high; the score is in 10..100; actions are non-empty and free of duplicates; "allow" is there exactly when nothing was noticed |
| `IntegrityCheck.CleanReport` | internal/licensecore/server.go:1707-1856 | Nothing noticed means level low, score 10, "allow" |
| `IntegrityCheck.WorseNeverBetter` | internal/licensecore/server.go:1706-1857 | Switching on further bad signs never lowers score or level and never clears a denial |
| `Server.Server.EvaluateIntegrity` | internal/licensecore/server.go:1706-1857 | The evaluator in place: events appended one by one, and score, level, actions, denial and release as the reference has them |
| `Server.Server.CheckVersion` | internal/licensecore/server.go:1712-1795 | The nested release checks and the totals they leave |
| `Evaluation.UniqueActions` | internal/licensecore/server.go:3862-3872 | Each action once, in order of first sight |
| `Policies.UpsertAllRefines` | internal/licensecore/server.go:2164-2189 | Read as a map from (application, capability), upserting a batch is overriding item by item, duplicates inside the batch included, a stored creation time kept |
| `Policies.BatchMeaning` | internal/licensecore/server.go:2164-2189 | In a batch the last item for a key wins, with the creation time stored before or, for a new key, its first item's; keys not named stay |
| `Policies.UpsertAllUnique` | internal/licensecore/server.go:2164-2189 | Upserting keeps keys unique |
| `Policies.SeedOnlyAdds` | internal/licensecore/server.go:2191-2201 | Seeding only appends, keeps keys unique and leaves every default present |
| `Policies.SeedKeepsAndSettles` | internal/licensecore/server.go:2191-2201 | Seeding never overwrites, and seeding again at any later time adds nothing |
| `Policies.DecisionIsSound` | internal/licensecore/server.go:2265-2299 | Allowed exactly when registered and the entitlement held; a refusal never reads "allow"; "unknown_capability" exactly when unregistered |
| `Policies.ForAppIsSortedView` | internal/licensecore/server.go:2203-2214 | An application's policies come out sorted by capability and are exactly those stored |
| `Policies.BundleIsSearch` | sdk/go/licenseguard/client.go:155-165 | Looking a capability up in the bundle gives the decision a search of the stored list would give, or nothing where that finds nothing |
| `Policies.BundleAgreesOnline` | internal/licensecore/server.go:2225-2254 | Bundle and online check agree on a capability if and only if it was asked for trimmed or is not registered under its trimmed name |
| `Witnesses.BundleCanDisagree` | internal/licensecore/server.go:1409-1433 | A reachable state in which a capability asked for with a blank is allowed online and absent from the bundle |
| `GrantLaws.BundleStaysAccurate` | internal/licensecore/server.go:1395-1445 | Later in the run the granted bundle answers as the online check does for the same licence, with that one exception, for as long as no request changes policies |
| `Diagnostics.DiagnosisAgrees` | internal/licensecore/server.go:1908-1990 | For an application named by its key, the four findings are all fine if and only if the client's genuine-token request at that instant passes every gate between challenge and integrity |
| `Diagnostics.FineMeansPasses` | internal/licensecore/server.go:1908-1990 | However the application is named, all fine means that the request passes |
| `Diagnostics.DiagnosisInRuns` | internal/licensecore/server.go:1908-1990 | In every state of every run: all fine means passing, and a client that passes is reported all fine or as a mismatch of its licence alone |
| `Diagnostics.DisagreementIff` | internal/licensecore/server.go:1936-1945 | Findings and gates disagree exactly when the application was named by its ID, the licence is held under its key, and nothing else stands against the client: a mismatch is then reported for a client that passes |
| `Witnesses.MismatchIsReported` | internal/licensecore/server.go:1936-1945 | A run from an empty server to a state where that happens |
| `Diagnostics.ActivationReported` | internal/licensecore/server.go:1949-1959 | The activation reported is the found device's own exactly when that pair has one |
| `Witnesses.OtherActivationReported` | internal/licensecore/server.go:1949-1959 | A run of six calls after which a device without any activation is reported, with another device's activation, as fine in all four findings |
| `Diagnostics.LatestIsLatest` | internal/licensecore/server.go:3047-3059 | The activation picked for a licence was verified last, and is the earliest stored of several |
| `Server.Server.Diagnose` | internal/licensecore/server.go:1908-1990 | The diagnostic's searches and findings in place |
| `BlockingLaws.BlockedFromThenOn` | internal/licensecore/server.go:516-650 | In every run: a version created as blocked, or patched to be, is refused from then on to every activate and verify request, and every heartbeat, that reports it for the application whose key it was filed under, until a patch names the row and gives it another status |
| `BlockingLaws.BlockedUntilPatched` | internal/licensecore/server.go:1712-1723 | The same for any row found blocked at any state of a run |
| `BlockingLaws.BlockedAtOnce` | internal/licensecore/server.go:516-650 | Such a request stores the row blocked, under the name given, and every report of its version judged under that name is refused |
| `BlockingLaws.OtherRowsDecideNothing` | internal/licensecore/server.go:1712-1723 | In every run every activate and verify request is answered, word for word, and every heartbeat, as if rows filed under a name that is no application's key were not there |
| `BlockingLaws.OffersIgnore` | internal/licensecore/server.go:2325-2345 | Nor is any update offered or withheld because of such rows |
| `BlockingLaws.BlockedByIdBlocksNobody` | internal/licensecore/server.go:516-566 | In every run: a version blocked under an application's ID is filed under no application's key, then and for good, and changes no later answer |
| `Witnesses.BlockedByIdIsGranted` | internal/licensecore/server.go:516-566 | A run of five calls in which a version blocked under the application's ID is reported by a client of that application, and granted |
| `Releases.BlockedRowWins` | internal/licensecore/server.go:3071-3085 | One blocked row of a version decides, wherever it stands and however many other rows there are |
| `Releases.LatestIsMaximal` | internal/licensecore/server.go:3116-3134 | The selected release is an active one that no other active one is newer than |
| `Releases.LatestUpToTies` | internal/licensecore/server.go:3116-3134 | However a sort breaks ties, the choice has the same build number and creation time |
| `AdminLaws.SelectionIgnoresPatch` | internal/licensecore/server.go:568-650 | Whatever percentage an admin sets on a release, every platform has the same release selected and the same clients below its minimum |
| `AdminLaws.PatchNeverWithdraws` | internal/licensecore/server.go:2325-2345 | An admin who raises the selected release's percentage withdraws no offer; a required update stays on offer whatever percentage is set |
| `Releases.OfferShare` | internal/licensecore/server.go:2325-2345 | A rollout reaches the share it names: an update that is not required is offered in exactly as many of the hundred buckets as the clamped percentage says, a required one in all |
| `Releases.FindReleaseLocked` | internal/licensecore/server.go:3071-3085 | The scan with its fallback finds the first blocked row, else the first row |
| `Releases.LatestReleaseLocked` | internal/licensecore/server.go:3116-3134 | Filter, sort and pick |
| `Versions.CompareVersionStrings` | internal/licensecore/server.go:3565-3589 | The loop computes the reference comparison |
| `Versions.SplitVersionParts` | internal/licensecore/server.go:3591-3612 | The loop computes the reference parse |
| `Versions.CompareMeaning` | internal/licensecore/server.go:3565-3589 | The sign says which version is below at the first differing part, missing parts counting as zero |
| `Versions.Antisymmetric` | internal/licensecore/server.go:3565-3589 | Swapping the sides flips the sign |
| `Versions.Transitive` | internal/licensecore/server.go:3565-3589 | The order is transitive, and so is its equality |
| `Versions.EqualUpToZeros` | internal/licensecore/server.go:3565-3589 | Zero exactly when the part lists agree up to trailing zeros |
| `Versions.ParsePrintIff` | internal/licensecore/server.go:3591-3612 | A list of numbers survives dotted printing and parsing if and only if each fits a 64-bit integer; otherwise it comes back wrapped |
| `SqlSplitter.SplitSqlStatements` | internal/licensecore/migration.go:118-222 | The loop with its flags, jumps and builder computes the reference split |
| `SqlSplitter.ReadDollarTag` | internal/licensecore/migration.go:224-239 | The tag at the head of the text, if any |
| `SqlSplitterLaws.ResplitStable` | internal/licensecore/migration.go:118-222 | For every text: joining the statements with "\n;" and splitting again gives the same statements |
| `SqlSplitterLaws.PiecesConserve` | internal/licensecore/migration.go:127-221 | The untrimmed pieces with ";" between them are the input, byte for byte |
| `SqlSplitterLaws.CutsAreNeutralSemicolons` | internal/licensecore/migration.go:205-212 | There is a cut at a byte if and only if it is a ";" read in neutral mode |
| `SqlSplitterLaws.SplitConcat` | internal/licensecore/migration.go:127-221 | If a ends in neutral mode, split(a ";" b) is split(a) followed by split(b) |
| `SqlSplitterLaws.Continue` | internal/licensecore/migration.go:127-221 | Lexing a text and then one that begins with a blank or ";" is lexing the second in the mode the first ends in |
| `SqlSplitterLaws.TrimmedPiece` | internal/licensecore/migration.go:205-220 | Trimming a piece keeps it one piece; a newline stands in for the blanks cut off |
| `AuditMetadata.SanitizeCleans` | internal/licensecore/server.go:3661-3709 | At every depth nothing but the placeholder stands under a sensitive key, and what was clean, only that, is logged as it is |
| `AuditMetadata.SanitizeIdempotent` | internal/licensecore/server.go:3661-3709 | Redacting twice is redacting once |
| `AuditMetadata.SanitizeHides` | internal/licensecore/server.go:3661-3709 | Two values leave the same log if and only if they differ at most under sensitive keys |
| `Server.Server.Serve` | internal/licensecore/server.go:1524-1704 | Any request extends the object's ghost run by exactly its machine step, so the run theorems hold of every object |
| `Server.Server.Dispatch` | internal/licensecore/server.go:851-1704 | Every request, by kind, moves the object to the state and answer of the machine's step |
| `Server.Server.ProcessClientVerification` | internal/licensecore/server.go:1524-1704 | Activate and verify in place, gate by gate |
| `Server.Server.PassLicense` | internal/licensecore/server.go:1558-1600 | Application and licence gates, with the expired mark and the mismatch event they leave |
| `Server.Server.PassDevice` | internal/licensecore/server.go:1602-1630 | Device gates; devices are counted only when the pair is new |
| `Server.Server.BindDevice` | internal/licensecore/server.go:1602-1703 | From device lookup to reply |
| `Server.Server.Activate` | internal/licensecore/server.go:1624-1644 | A new activation, or the known one written active |
| `Server.Server.Grant` | internal/licensecore/server.go:1659-1703 | Lifetimes, claims, bundle and reply |
| `Server.Server.FindOrCreateDevice` | internal/licensecore/server.go:2415-2438 | The device known by its fingerprint, refreshed, or a new one |
| `Server.Server.ActiveDeviceCount` | internal/licensecore/server.go:3061-3069 | The number of distinct devices with an active activation |
| `Server.Server.ValidateChallenge` | internal/licensecore/server.go:2385-2402 | Verdict and table after one use |
| `Server.Server.CleanupExpiredChallenges` | internal/licensecore/server.go:2404-2413 | Exactly the live entries stay, and the count removed |
| `Server.Server.IssueChallenge` | internal/licensecore/server.go:1181-1235 | Issuing a challenge, with its limiter |
| `Server.Server.IsRateLimited` | internal/licensecore/server.go:3779-3788 | The limiter's verdict |
| `Server.Server.RecordFailure` | internal/licensecore/server.go:3790-3800 | The window after a failure |
| `Server.Server.Heartbeat` | internal/licensecore/server.go:1294-1393 | Heartbeat, with its evidence examined |
| `Server.Server.CapabilityCheck` | internal/licensecore/server.go:1395-1445 | The online check, with its denial event |
| `Server.Server.Deactivate` | internal/licensecore/server.go:1447-1494 | Deactivation by token |
| `Server.Server.CapabilityDecision` | internal/licensecore/server.go:2265-2299 | The decision on one policy |
| `Server.HasEntitlement` | internal/licensecore/server.go:2301-2312 | Held, or nothing required |
| `Server.Server.BundlePolicies` | internal/licensecore/server.go:2225-2254 | The bundle of an application's decisions |
| `Server.Server.PoliciesForApp` | internal/licensecore/server.go:2203-2214 | Filter and sort |
| `Server.Server.UpsertCapabilityPolicies` | internal/licensecore/server.go:2164-2189 | The nested upsert loops compute the reference upsert |
| `Server.Server.EnsureDefaultVisionFlowPolicies` | internal/licensecore/server.go:2191-2201 | The seeding loop and its count of additions |
| `Server.Server.UpsertPolicies` | internal/licensecore/server.go:699-738 | A batch is normalised as a whole or refused as a whole |
| `Server.Server.SeedDefaults` | internal/licensecore/server.go:741-759 | Seeding on request |
| `Server.Server.ActOnLicense` | internal/licensecore/server.go:964-1010 | Revoke, suspend, resume; revoking blocks the licence's activations |
| `Server.Server.ActOnDevice` | internal/licensecore/server.go:1018-1065 | Block, unblock, unbind; unbinding deactivates the device's active activations |
| `Server.Server.ResolveRisk` | internal/licensecore/server.go:1075-1107 | An event is resolved, and audited, once |
| `Server.Server.RotateKey` | internal/licensecore/server.go:851-881 | Active keys retired, one added |
| `Server.Server.CreateLicense` | internal/licensecore/server.go:890-957 | Defaults, expiry and refusal |
| `Server.Server.CreateApp` | internal/licensecore/server.go:399-475 | Application, first release, key and default policies |
| `Server.Server.UpdateSettings` | internal/licensecore/server.go:1117-1179 | Patch, normalise, store |
| `Server.Server.CreateRelease` | internal/licensecore/server.go:516-566 | A release stored with its defaults |
| `Server.Server.PatchRelease` | internal/licensecore/server.go:568-650 | A release patched in place |
| `Server.Server.LatestActivation` | internal/licensecore/server.go:3047-3059 | The scan for the activation verified last |
| `Server.Server.FindPair` | internal/licensecore/server.go:1947-1959 | Device and activation of a diagnostic, one standing in for the other |
| `AdminLaws.AppReady` | internal/licensecore/server.go:399-475 | A new application is found by its key, has exactly one key filed under it, active, and its first release is the latest of its platform |
| `AdminLaws.LicenseUsableIff` | internal/licensecore/server.go:890-957 | A licence as created is good for a request with its key exactly when the application asked for is the active one under whose key it was filed, and until it expires |
| `AdminLaws.LicenseDefaults` | internal/licensecore/server.go:908-923 | Left to its defaults a licence is for one to a thousand devices, lasts a day to ten years and entitles to something |
| `AdminLaws.SettingsStored` | internal/licensecore/server.go:1139-1167 | Settings are stored within bounds and read back as stored at every later reading; a field submitted within bounds is stored as submitted |
| `AdminLaws.SettingsKept` | internal/licensecore/server.go:1139-1167 | What is not submitted stays, except that the short token lifetime follows the long one down |
| `AdminLaws.MissingTells` | internal/licensecore/server.go:2347-2371 | What is reported missing is the names of the fields not given, each for its own field, in the source's order |
| `AdminLaws.NothingMissingIff` | internal/licensecore/server.go:2347-2371 | Nothing is reported missing if and only if the build number is positive and all nine fields are given |
| `AdminLaws.ValidatedAreComplete` | internal/licensecore/server.go:541-627 | With validation asked for, only complete releases are stored, created or patched; a refusal changes nothing |
| `AdminLaws.SeededDecisions` | internal/licensecore/server.go:741-759 | Seeding registers exactly the default capabilities that were missing and changes no other registration |
| `Server.MissingReleaseFields` | internal/licensecore/server.go:2347-2371 | The names of the fields an integrity check would miss, in order |
| `Server.Server.EveryGrantWasSound` | internal/licensecore/server.go:1554-1703 | Of the object's own run: every grant it has given was deserved, and had shown its challenge, licence and device |
| `Server.Server.ActiveWithinLimit` | internal/licensecore/server.go:1624-1644 | Of the object's own present: the active devices of a licence are within its limit, but for the calls that switched one back on |
| `Server.Server.RecordsInOrder` | internal/licensecore/server.go:851-1704 | Of the object's own present: the invariant holds, and everything it was opened on is still there |
| `Machine.ExecuteIsRun` | internal/licensecore/server.go:851-1704 | Every list of calls under a clock that never runs backwards has its run, from every state |
| `SqlLexemes.SplitsAtCuts` | internal/licensecore/migration.go:118-222 | Every text given as lexemes (plain bytes, quoted literals with doubled quotes, quoted names, line and block comments, tagged bodies, cuts, and an unclosed one at the end) splits into the stretches between its cuts, written and trimmed, the blank ones left out |
| `SqlLexemes.EveryTextLexes` | internal/licensecore/migration.go:127-239 | Every text is such a list of lexemes, so the statements of every text are told by its cuts |
| `SpaceLaws.WhiteIff` | internal/licensecore/migration.go:205-220 | The byte patterns trimmed are exactly the UTF-8 encodings of Go's white code points |
| `SpaceLaws.TrimMeans` | internal/licensecore/migration.go:205-220 | Trimming takes white code points off both ends and leaves none there |
| `SpaceLaws.TrimSpaceMeans` | internal/licensecore/server.go:2082-2109 | The same for strings |
| `SpaceLaws.LessIff` | internal/licensecore/server.go:2203-2214 | Policies are sorted in dictionary order of their capabilities |
| `SpaceLaws.LowerMeans` | internal/licensecore/server.go:3690-3692 | Lower case has no capitals and is the same text but for case |
| `SpaceLaws.EqualFoldIff` | internal/licensecore/server.go:1737-1795 | Two texts are equal under folding if and only if they are the same but for case |
| `ReplyLaws.RepliedAs` | internal/licensecore/server.go:1524-1704 | Every activate and verify request is granted if no reason to refuse it exists, and otherwise refused for the first in the order of the gates; each reason is told from the stored records alone |
| `ReplyLaws.RiskTold` | internal/licensecore/server.go:1706-1857 | The risk sent with an answer: the score of the report for a request granted or refused for its report, else the refusal's own |
| `ReplyLaws.RefusalGraded` | internal/licensecore/server.go:1550-1630 | A refusal's fixed risk is graded as a score of its weight would be and denies; one for want of room asks for a review |
| `ReplyLaws.ReportedTells` | internal/licensecore/server.go:1707-1712 | The release a report names is the first blocked row of its version filed under the application, else the first, if there is any |
| `EffectLaws.LeavesBehind` | internal/licensecore/server.go:1554-1658 | The store after every request, by the first reason to refuse it: the device on record, the activation written, each sign logged once, the device scored, the report filed, an event saying why a device was turned away, the expired licence marked, and nothing else |
| `EffectLaws.ExpiryIsMarked` | internal/licensecore/server.go:1589-1594 | An admitted request for an active application that presents its active licence past its time is answered "expired" and leaves exactly that licence expired; no other request touches a licence |
| `EffectLaws.ExpiredFromThenOn` | internal/licensecore/server.go:1419-1424 | Once a request was answered "expired", its licence gets no grant and no capability decision in the run until an admin resumes it |
| `EffectLaws.LimiterTold` | internal/licensecore/server.go:1549-1557 | A limited request leaves no trace; a granted one clears its caller's record; any other counts one failure in its window; the challenge named is used up and expired ones swept |
| `OrderLaws.LicenseOrders` | internal/licensecore/server.go:964-1010 | In every run, an order on a licence is answered Ok exactly when the licence is stored, leaves it suspended, revoked or active as ordered and every other as it was, and a revocation blocks its activations and no other |
| `OrderLaws.StoppedFromThenOn` | internal/licensecore/server.go:987-1000 | After a suspension or revocation answered Ok the licence gets no grant and no capability decision from the next call on, until an admin resumes it |
| `OrderLaws.DeviceOrders` | internal/licensecore/server.go:1018-1065 | In every run, an order on a device is answered Ok exactly when it is stored, and leaves it blocked, active or its active activations off as ordered, everything else of devices and activations as it was |
| `OrderLaws.DeviceBlockedFromThenOn` | internal/licensecore/server.go:1036-1051 | After a block answered Ok the device gets no grant, under any licence, from the next call on until an unblock |
| `LifetimeLaws.GrantLifetimes` | internal/licensecore/server.go:1659-1675 | Every grant of every run is issued at its instant, expires as many minutes later as the stored settings say for its risk, and keeps its grace as many days as they say |
| `LifetimeLaws.NoGraceNoOffline` | internal/licensecore/server.go:1659-1675 | With no days of grace stored, a cache holding the granted token opens exactly until the token expires |
| `LifetimeLaws.GrantRisk` | internal/licensecore/server.go:1706-1857 | The risk of every grant is ten and the weights of the signs its report shows, a hundred at most; high from 80, low below 45 |
| `LifetimeLaws.DebuggerShortens` | internal/licensecore/server.go:1660-1663 | A grant whose report shows a debugger has the short lifetime, whatever the settings |
| `ScoreLaws.ScoreTells` | internal/licensecore/server.go:1706-1857 | For every release and report the score is the smaller of 100 and 10 plus the weights of the signs shown, high exactly from 80, low exactly below 45 |
| `ScoreLaws.ActionsTell` | internal/licensecore/server.go:1706-1857 | The actions answered are those the signs call for, a shorter lifetime for a high score without a damning sign, and "allow" where there is no sign |
| `ScoreLaws.SignalsTell` | internal/licensecore/server.go:1706-1857 | Each sign shown raises its one event, with its weight, severity and action, and nothing else raises any |
| `ScoreLaws.RefusedIff` | internal/licensecore/server.go:1706-1857 | A report is refused if and only if it shows a damning sign |
| `ClientLaws.HeartbeatAnswered` | internal/licensecore/server.go:1294-1393 | What every heartbeat is answered, told from the records stored |
| `ClientLaws.HeartbeatLeaves` | internal/licensecore/server.go:1311-1380 | What every heartbeat leaves: its activation and device seen, a mismatch event, or its report filed, its signs logged and its device scored |
| `ClientLaws.CapabilityAnswered` | internal/licensecore/server.go:1395-1445 | What every capability check is answered; a refusal leaves its one event, anything else no trace |
| `ClientLaws.DeactivateAnswered` | internal/licensecore/server.go:1447-1494 | What every deactivation is answered; it leaves its own activation off and the device seen, or a mismatch event |
| `ClientLaws.ChallengeAnswered` | internal/licensecore/server.go:1181-1235 | What every challenge request is answered, what it draws, and how it counts with the limiter |
| `ChallengeLaws.StaysPending` | internal/licensecore/server.go:1208-1226 | A challenge answered Ok is pending as drawn at every later call of the run for five minutes, until a request names it |
| `ChallengeLaws.DrawnIsGood` | internal/licensecore/server.go:2385-2402 | The first request of the run to name it within that time, as drawn, is not refused for its challenge |
| `AuditLaws.LogIsDeeds` | internal/licensecore/server.go:3647-3659 | The audit log of every run is what it began with and then the deeds of its calls, each by its admin, at its time and on its target: none missing, none invented |
| `AdminAnswers.AdminAnswered` | internal/licensecore/server.go:399-1179 | What every admin request is answered, told from the records stored; a refused one changes nothing |
| `AdminAnswers.StartsEmpty` | internal/licensecore/server.go:2450-2461 | A server started without stored data has the default settings and nothing else |
| `AdminAnswers.AppStored` | internal/licensecore/server.go:399-475 | A new application is stored active, with a first release and one active key, all three field by field |
| `AdminAnswers.AppPolicies` | internal/licensecore/server.go:2128-2131 | A new application gets the default policies if its key, whatever its case, says VisionFlow, and none otherwise |
| `AdminAnswers.KeysRotated` | internal/licensecore/server.go:2607-2622 | A rotation retires the active keys filed under the name given, marks when, and adds an active one |
| `AdminAnswers.LicenseStored` | internal/licensecore/server.go:890-957 | A new licence is as asked for; what is left out comes from the settings of the moment |
| `AdminAnswers.EventResolved` | internal/licensecore/server.go:1075-1107 | Resolving marks exactly the event named, and keeps the time of one resolved before |
| `AdminAnswers.LimitsStored` | internal/licensecore/server.go:119-126 | New limits hold from then on, and every count starts over |
| `AdminAnswers.FlagsStored` | internal/licensecore/server.go:1139-1167 | Settings that are not numbers are stored as submitted, or kept |
| `AdminAnswers.ReleaseStored` | internal/licensecore/server.go:516-566 | A release is stored as submitted, under the name given, active and fully rolled out unless it says otherwise |
| `AdminAnswers.ReleasePatched` | internal/licensecore/server.go:568-650 | A patch changes the fields it gives of the one row it names, and nothing else of any row |
| `Tokens.NormalizeMeans` | internal/licensecore/server.go:2666-2697 | Field by field: what is missing takes its default, and the rest is drawn into its bounds |
| `PolicyLaws.BatchRegisters` | internal/licensecore/server.go:699-738 | After a batch a capability it names is registered as its last item says, with the creation time it had or else now; every other capability of every application as it was |
| `PolicyLaws.UpsertTells` | internal/licensecore/server.go:2164-2189 | One upsert registers the whole policy, its mode trimmed and in lower case, with the creation time it had, and leaves every other capability as it was |
| `PolicyLaws.DefaultsTold` | internal/licensecore/server.go:2133-2162 | The seven default capabilities, with the entitlement and mode of each |
| `Policies.DecisionTells` | internal/licensecore/server.go:2265-2312 | The whole decision, for every mode: unregistered is blocked as unknown; registered is allowed if its entitlement is blank or held, and else refused in its own mode |
| `Policies.BundleTells` | internal/licensecore/server.go:2225-2254 | The bundle is this licence's decisions on all the application's policies, in order; none without policies |
| `Releases.FindTells` | internal/licensecore/server.go:3071-3085 | The row that decides for a version: the first blocked one, without one the first, none if it has none |
| `Releases.LatestTells` | internal/licensecore/server.go:3116-3134 | The latest release is an active one with the highest build number and, among those, created last |
| `Releases.OfferTells` | internal/licensecore/server.go:2325-2345 | An offer names the latest release's version, address and hash, and says whether it must be taken |
| `Releases.MinimumTells` | internal/licensecore/server.go:2373-2383 | A version is below a minimum by its build number where both have one, and by its parts where one has not |
| `Versions.SeparatorsAlike` | internal/licensecore/server.go:3591-3597 | The four separators are interchangeable |
| `Versions.PartCounts` | internal/licensecore/server.go:3598-3611 | A part counts by the digits it starts with, and not at all without any |
| `AuditMetadata.SensitiveIff` | internal/licensecore/server.go:3690-3709 | A key is sensitive if and only if, trimmed and in lower case, it contains one of the seven words and is neither of the two prefixes |
| `OfflineSdk.UnsignedTells` | sdk/go/licenseguard/token.go:114-133 | Without a key the cached times alone decide |
| `OfflineSdk.SignedTells` | sdk/go/licenseguard/token.go:135-175 | With the key, every field of the answer, before the expiry, in the grace period and after |
| `OfflineSdk.FeatureTells` | sdk/go/licenseguard/token.go:177-187 | A feature is open exactly while the cache is, to the entitlements signed or, without the key, those cached |
| `Diagnostics.SearchesTold` | internal/licensecore/server.go:1908-1959 | What is named is found, the first that fits; without such a device that of the latest activation of the licence stands in; the activation is the pair's own or, where it has none, the latest |
| `Diagnostics.StatusesTold` | internal/licensecore/server.go:1908-1990 | A finding is missing exactly where nothing was found, and fine only where what was found is active |
| `Diagnostics.FindingsTold` | internal/licensecore/server.go:1908-1990 | The four findings, each told from the record found or from what was asked for |

## Left out

- HTTP routing, JSON decoding, CORS, onboarding texts and the integration archive: they carry no state.
- PostgreSQL, the JSON store and failures to save: saving always succeeds; the schema is used only for its keys.
- Ed25519, base64, bcrypt, SHA-256, CRC-32, DPAPI and random generation: taken as described under "Modelling choices".
- Admin accounts, sessions and login, with the login limiter, whose gate and record are separate critical sections.
- The sliding-window bound for challenge requests, for the same reason: their gate and their record are not one critical section.
- Plan and owner of a licence, policy limits, event summaries and metadata, message texts, and a release's channel and notes: no decision reads them.
- The update offer inside a verification reply: stated on its own in `Releases`.
- The schema's uniqueness of licence key hashes, which rests on keys drawn at random, and of release rows, which the code does not keep.
- The diagnostic's release, policy, risk and integrity findings, which no gate shares.
- Parsing of the cache's RFC 3339 times: they arrive parsed, or as absent where they do not parse.
- Server.Server.Dispatch: requests that only list stored records change nothing and are not among them.
- OfflineSdk.CachedAuthorization: the public key is the set of tokens and bundles it accepts; reading the cache file is not part of this model.
