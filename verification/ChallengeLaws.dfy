/** Over whole runs: a challenge is accepted at most once, and only as it was issued. */
module ChallengeLaws {
  import opened Types
  import opened World
  import opened Invariants
  import opened Machine
  import opened StepInvariants
  import opened Frames
  import ActivationLaws
  import Challenges
  import ClientLaws
  import DecisionLaws
  import EffectLaws
  import RateLimit
  import ReplyLaws
  import Steps
  import Verification
  import VerifyLaws

  /** The call is an activate or verify request that gets past the challenge with this identifier. */
  predicate Accepts(w: World, call: Call, id: Id) {
    && call.command.Verify?
    && call.command.request.challenge == Some(id)
    && VerifyLaws.Heard(w, call.command.request, call.now)
  }

  /** Where a challenge of the next state comes from: the state before, or the step that issued it. */
  ghost predicate Traced(w: World, call: Call, w': World, answer: Response) {
    forall id | id in w'.challenges ::
      || (id in w.challenges && w'.challenges[id] == w.challenges[id])
      || Issues(w, call, answer, id, w'.challenges[id])
  }

  ghost predicate Issues(w: World, call: Call, answer: Response, id: Id, c: Challenge) {
    && call.command.IssueChallenge? && answer == Done(Steps.Ok) && id == w.nextId
    && var req := call.command.challenge;
       c == Challenge(req.nonce, req.appId, req.installId, call.now + Challenges.LIFETIME, call.now)
  }

  /** Only activate, verify and challenge requests change the table. */
  lemma SameChallenges(w: World, call: Call)
    requires !call.command.Verify? && !call.command.IssueChallenge?
    ensures Step(w, call).0.challenges == w.challenges
  {
    hide Step, MayChange;
    WhoMayChange(call.command);
    StepFrame(w, call);
  }

  lemma ChallengesTraced(w: World, call: Call)
    ensures var (w', answer) := Step(w, call); Traced(w, call, w', answer)
  {
    hide Step, Steps.IssueChallenge, Verification.Verify, VerifyLaws.Heard, VerifyLaws.PassesGates, RateLimit.Record,
      RateLimit.IsLimited;
    ActivationLaws.StepAnswers(w, call);
    if call.command.Verify? {
      VerifyLaws.VerifyEffect(w, call.command.request, call.now);
    } else if call.command.IssueChallenge? {
      IssueChallengeFrame(w, call.command.challenge, call.now);
    } else {
      SameChallenges(w, call);
    }
  }

  lemma AcceptConsumes(w: World, call: Call, id: Id)
    requires Accepts(w, call, id)
    ensures id in w.challenges && id !in Step(w, call).0.challenges
    ensures var req, c := call.command.request, w.challenges[id];
            && c.appId == req.appId && c.installId == req.installId && c.nonce == req.nonce && call.now <= c.expiresAt
  {
    hide Step, Verification.Verify, VerifyLaws.PassesGates, RateLimit.IsLimited, RateLimit.Record;
    ActivationLaws.StepAnswers(w, call);
    VerifyLaws.VerifyEffect(w, call.command.request, call.now);
  }

  /** A challenge that is gone does not come back: identifiers are drawn only once. */
  lemma {:induction false} GoneForGood(r: Run, m: nat, n: nat, id: Id)
    requires IsRun(r) && Valid(r.states[0]) && m <= n < |r.states|
    requires id !in r.states[m].challenges && id < r.states[m].nextId
    ensures id !in r.states[n].challenges && id < r.states[n].nextId
    decreases n
  {
    hide Step, Valid;
    if m < n {
      GoneForGood(r, m, n - 1, id);
      RunKeeps(r, n - 1, n);
      assert Stepped(r, n - 1);
      ChallengesTraced(r.states[n - 1], r.calls[n - 1]);
    }
  }

  /** The identifier of a pending challenge will not be drawn again. */
  lemma WasDrawn(w: World, call: Call, id: Id)
    requires Valid(w) && id in w.challenges
    ensures id < Step(w, call).0.nextId
  {
    hide Step;
    StepKeeps(w, call);
  }

  /** No challenge is accepted twice in a run. */
  lemma AcceptedOnce(r: Run, i: nat, j: nat, id: Id)
    requires IsRun(r) && Valid(r.states[0]) && i < j < |r.calls|
    requires Accepts(r.states[i], r.calls[i], id)
    ensures !Accepts(r.states[j], r.calls[j], id)
  {
    hide Step, Valid, Accepts;
    RunKeeps(r, i, i);
    assert Stepped(r, i);
    AcceptConsumes(r.states[i], r.calls[i], id);
    WasDrawn(r.states[i], r.calls[i], id);
    GoneForGood(r, i + 1, j, id);
    if Accepts(r.states[j], r.calls[j], id) {
      AcceptConsumes(r.states[j], r.calls[j], id);
    }
  }

  /** Every challenge of a state was issued by an earlier call of the run, or was there when it began. */
  lemma {:induction false} ChallengeOrigin(r: Run, n: nat, id: Id) returns (i: nat)
    requires IsRun(r) && n < |r.states| && id in r.states[n].challenges
    ensures id !in r.states[0].challenges || r.states[n].challenges[id] != r.states[0].challenges[id] ==>
              i < n && Issues(r.states[i], r.calls[i], r.answers[i], id, r.states[n].challenges[id])
    decreases n
  {
    hide Step, Issues;
    i := 0;
    if n > 0 {
      assert Stepped(r, n - 1);
      ChallengesTraced(r.states[n - 1], r.calls[n - 1]);
      if id in r.states[n - 1].challenges && r.states[n - 1].challenges[id] == r.states[n].challenges[id] {
        i := ChallengeOrigin(r, n - 1, id);
      } else {
        i := n - 1;
      }
    }
  }

  /**
   An accepted challenge was issued earlier in the run, for the same application, installation and nonce, at most
   five minutes before.
   */
  lemma AcceptedAsIssued(r: Run, j: nat, id: Id) returns (i: nat)
    requires IsRun(r) && j < |r.calls| && Accepts(r.states[j], r.calls[j], id)
    requires id !in r.states[0].challenges
    ensures i < j && r.calls[i].command.IssueChallenge? && r.answers[i] == Done(Steps.Ok) && r.states[i].nextId == id
    ensures var issued, used := r.calls[i].command.challenge, r.calls[j].command.request;
            && issued.appId == used.appId && issued.installId == used.installId && issued.nonce == used.nonce
    ensures r.calls[i].now <= r.calls[j].now <= r.calls[i].now + 5 * MINUTE
  {
    hide Step, VerifyLaws.Heard;
    AcceptConsumes(r.states[j], r.calls[j], id);
    i := ChallengeOrigin(r, j, id);
  }

  // ----- a challenge drawn is good -----

  /** The challenge a call draws. */
  function Drawn(call: Call): Challenge
    requires call.command.IssueChallenge?
  {
    var req := call.command.challenge;
    Challenge(req.nonce, req.appId, req.installId, call.now + 5 * MINUTE, call.now)
  }

  lemma OthersStay(w: World, call: Call, id: Id)
    requires id in w.challenges && id < w.nextId && call.now <= w.challenges[id].expiresAt
    requires !(call.command.Verify? && call.command.request.challenge == Some(id))
    ensures var w' := Step(w, call).0;
            id in w'.challenges && w'.challenges[id] == w.challenges[id]
  {
    hide Step, Steps.IssueChallenge, Verification.Verify, VerifyLaws.Heard, VerifyLaws.PassesGates, RateLimit.IsLimited,
      RateLimit.Record, ClientLaws.ChallengeAnswer, EffectLaws.Counted, EffectLaws.OthersKept;
    ActivationLaws.StepAnswers(w, call);
    if call.command.Verify? {
      VerifyLaws.VerifyEffect(w, call.command.request, call.now);
    } else if call.command.IssueChallenge? {
      ClientLaws.ChallengeAnswered(w, call.command.challenge, call.now);
    } else {
      SameChallenges(w, call);
    }
  }

  /**
   A challenge answered Ok is pending as drawn at every later call of the run, for five minutes and until a request
   names it; a request that names it then, with its application, installation and nonce, is not refused for it.
   */
  lemma {:induction false} StaysPending(r: Run, m: nat, n: nat)
    requires IsRun(r) && Valid(r.states[0]) && m < n < |r.states|
    requires r.calls[m].command.IssueChallenge? && r.answers[m] == Done(Steps.Ok)
    requires forall i | m < i < n ::
               && r.calls[i].now <= r.calls[m].now + 5 * MINUTE
               && !(r.calls[i].command.Verify? && r.calls[i].command.request.challenge == Some(r.states[m].nextId))
    ensures var id := r.states[m].nextId;
            && id < r.states[n].nextId
            && id in r.states[n].challenges && r.states[n].challenges[id] == Drawn(r.calls[m])
    decreases n
  {
    hide Step, Valid, Grows;
    if n == m + 1 {
      assert Stepped(r, m);
      ActivationLaws.StepAnswers(r.states[m], r.calls[m]);
      DrawnPending(r.states[m], r.calls[m]);
    } else {
      StaysPending(r, m, n - 1);
      assert Stepped(r, n - 1);
      OthersStay(r.states[n - 1], r.calls[n - 1], r.states[m].nextId);
      RunKeeps(r, n - 1, n);
      NextGrows(r.states[n - 1], r.states[n]);
    }
  }

  lemma DrawnPending(w: World, call: Call)
    requires call.command.IssueChallenge?
    requires Steps.IssueChallenge(w, call.command.challenge, call.now).1 == Steps.Ok
    ensures var w' := Steps.IssueChallenge(w, call.command.challenge, call.now).0;
            w.nextId < w'.nextId && w.nextId in w'.challenges && w'.challenges[w.nextId] == Drawn(call)
  {
    hide Steps.IssueChallenge, ClientLaws.ChallengeAnswer, EffectLaws.Counted, EffectLaws.OthersKept;
    ClientLaws.ChallengeAnswered(w, call.command.challenge, call.now);
  }

  lemma NextGrows(w: World, w': World)
    requires Grows(w, w')
    ensures w.nextId <= w'.nextId
  {
  }

  lemma DrawnIsGood(r: Run, m: nat, n: nat)
    requires IsRun(r) && Valid(r.states[0]) && m < n < |r.calls|
    requires r.calls[m].command.IssueChallenge? && r.answers[m] == Done(Steps.Ok)
    requires forall i | m < i < n :: !(r.calls[i].command.Verify?
                                       && r.calls[i].command.request.challenge == Some(r.states[m].nextId))
    requires r.calls[n].command.Verify? && r.calls[n].now <= r.calls[m].now + 5 * MINUTE
    requires var drawn, req := r.calls[m].command.challenge, r.calls[n].command.request;
             && req.challenge == Some(r.states[m].nextId) && req.nonce == drawn.nonce
             && req.appId == drawn.appId && req.installId == drawn.installId
    ensures ReplyLaws.ChallengeGood(r.states[n], r.calls[n].command.request, r.calls[n].now)
    ensures r.answers[n].Verified?
    ensures !(r.answers[n].reply.Denied? && r.answers[n].reply.code == Verification.ChallengeInvalid)
  {
    hide Step, Valid, Verification.Verify, ReplyLaws.LicenseRefusal, ReplyLaws.DeviceRefusal;
    StaysPending(r, m, n);
    assert Stepped(r, n);
    ActivationLaws.StepAnswers(r.states[n], r.calls[n]);
    RunKeeps(r, n, n);
    ReplyLaws.RepliedAs(r.states[n], r.calls[n].command.request, r.calls[n].now);
    NotForChallenge(r.states[n], r.calls[n].command.request, r.calls[n].now);
  }

  lemma NotForChallenge(w: World, req: Verification.Request, now: Time)
    requires req.challenge.Some? && ReplyLaws.ChallengeGood(w, req, now)
    ensures ReplyLaws.Refusal(w, req, now) != Some(Verification.ChallengeInvalid)
  {
    hide DecisionLaws.Presented, ReplyLaws.PairStored;
  }

  // ----- the sweep over whole runs -----

  /** The table of a server that never sweeps, after one call. */
  ghost function KeptAfter(w: World, call: Call, answer: Response, kept: Challenges.Table): Challenges.Table {
    if call.command.IssueChallenge? && answer == Done(Steps.Ok) then
      var req := call.command.challenge;
      Challenges.Issue(kept, w.nextId, req.nonce, req.appId, req.installId, call.now)
    else if call.command.Verify? && Uses(w, call.command.request, call.now) then
      kept - {call.command.request.challenge.value}
    else kept
  }

  /** The request gets as far as the challenge. */
  predicate Uses(w: World, req: Verification.Request, now: Time) {
    !RateLimit.IsLimited(w.limits, w.rates, Verification.RateKey(req), now) && !Verification.Blank(req)
  }

  /** The table of a server that never sweeps, before call n of the run. */
  ghost function Kept(r: Run, n: nat): Challenges.Table
    requires n <= |r.calls| && |r.states| == |r.calls| + 1 && |r.answers| == |r.calls|
  {
    if n == 0 then r.states[0].challenges
    else KeptAfter(r.states[n - 1], r.calls[n - 1], r.answers[n - 1], Kept(r, n - 1))
  }

  lemma IssueAgrees(w: World, call: Call, kept: Challenges.Table)
    requires call.command.IssueChallenge? && Challenges.Agree(w.challenges, kept, call.now)
    ensures var (w', answer) := Step(w, call);
            Challenges.Agree(w'.challenges, KeptAfter(w, call, answer, kept), call.now)
  {
    hide Step, RateLimit.IsLimited, RateLimit.Record, RateLimit.Reset;
    ActivationLaws.StepAnswers(w, call);
  }

  lemma UseAgrees(w: World, call: Call, kept: Challenges.Table)
    requires call.command.Verify? && Challenges.Agree(w.challenges, kept, call.now)
    ensures var (w', answer) := Step(w, call);
            Challenges.Agree(w'.challenges, KeptAfter(w, call, answer, kept), call.now)
  {
    hide Step, Verification.Verify, VerifyLaws.Heard, VerifyLaws.PassesGates, RateLimit.IsLimited, RateLimit.Record,
      VerifyLaws.LicenseOf, VerifyLaws.DeviceOf, VerifyLaws.SignalsOf, VerifyLaws.ActivationsAfter,
      VerifyLaws.DeviceAfter;
    ActivationLaws.StepAnswers(w, call);
    VerifyLaws.VerifyEffect(w, call.command.request, call.now);
  }

  lemma StepAgrees(w: World, call: Call, kept: Challenges.Table)
    requires Challenges.Agree(w.challenges, kept, call.now)
    ensures var (w', answer) := Step(w, call);
            Challenges.Agree(w'.challenges, KeptAfter(w, call, answer, kept), call.now)
  {
    hide Step, Challenges.Agree, Uses;
    if call.command.IssueChallenge? {
      IssueAgrees(w, call, kept);
    } else if call.command.Verify? {
      UseAgrees(w, call, kept);
    } else {
      SameChallenges(w, call);
    }
  }

  lemma {:induction false} KeptAgrees(r: Run, n: nat, now: Time)
    requires IsRun(r) && n <= |r.calls| && (n > 0 ==> r.calls[n - 1].now <= now)
    ensures Challenges.Agree(r.states[n].challenges, Kept(r, n), now)
    decreases n
  {
    hide Step, KeptAfter;
    if n > 0 {
      var last := r.calls[n - 1];
      KeptAgrees(r, n - 1, last.now);
      assert Stepped(r, n - 1);
      StepAgrees(r.states[n - 1], last, Kept(r, n - 1));
    }
  }

  /**
   The sweep is invisible in whole runs of the server: whenever a request's challenge is judged, the table swept along
   the way accepts it exactly when the table of a server that never sweeps would.
   */
  lemma SweepInvisible(r: Run, i: nat)
    requires IsRun(r) && i < |r.calls| && r.calls[i].command.Verify?
    requires r.calls[i].command.request.challenge.Some?
    ensures var req, now := r.calls[i].command.request, r.calls[i].now;
            Verification.ChallengeAccepted(r.states[i], req, now)
            <==> Challenges.Judge(Kept(r, i), req.appId, req.installId, req.challenge.value, req.nonce, now)
                 == Challenges.Accepted
  {
    hide Step, Kept;
    KeptAgrees(r, i, r.calls[i].now);
  }
}
