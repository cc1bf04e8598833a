/** Over whole runs: how many failures of one caller the limiter lets through. */
module LimiterLaws {
  import opened Types
  import opened World
  import opened Machine
  import opened Frames
  import ActivationLaws
  import RateLimit
  import Steps
  import Verification
  import VerifyLaws

  /** The call is a request of this caller that was let through and failed. */
  predicate FailsFor(call: Call, answer: Response, k: RateLimit.Key) {
    && call.command.Verify? && Verification.RateKey(call.command.request) == k
    && answer.Verified? && !answer.reply.Granted? && answer.reply != Verification.Failed(Verification.RateLimited)
  }

  /** The times of the caller's recorded failures among calls m to n. */
  function FailureTimes(r: Run, k: RateLimit.Key, m: nat, n: nat): seq<Time>
    requires m <= n <= |r.calls| && |r.answers| == |r.calls|
    decreases n
  {
    if m == n then []
    else
      FailureTimes(r, k, m, n - 1) + (if FailsFor(r.calls[n - 1], r.answers[n - 1], k) then [r.calls[n - 1].now] else [])
  }

  /** Nothing between calls m and n clears the caller's record: no grant to it, no new limits. */
  ghost predicate NoReset(r: Run, k: RateLimit.Key, m: nat, n: nat)
    requires m <= n <= |r.calls| && |r.answers| == |r.calls|
  {
    forall i | m <= i < n ::
      && !r.calls[i].command.SetRateLimit?
      && !(r.calls[i].command.Verify? && Verification.RateKey(r.calls[i].command.request) == k
           && r.answers[i].Verified? && r.answers[i].reply.Granted?)
  }

  ghost predicate SameRecord(t: RateLimit.Table, t': RateLimit.Table, k: RateLimit.Key) {
    (k in t' <==> k in t) && (k in t ==> t'[k] == t[k])
  }

  /** Whether a request of the caller was let through and failed, from its reply. */
  predicate Fails(req: Verification.Request, reply: Verification.Reply, k: RateLimit.Key) {
    Verification.RateKey(req) == k && !reply.Granted? && reply != Verification.Failed(Verification.RateLimited)
  }

  lemma VerifyRecords(w: World, req: Verification.Request, now: Time, k: RateLimit.Key)
    requires !(Verification.RateKey(req) == k && Verification.Verify(w, req, now).1.Granted?)
    ensures var (w', reply) := Verification.Verify(w, req, now);
            && w'.limits == w.limits
            && (if Fails(req, reply, k) then
                  !RateLimit.IsLimited(w.limits, w.rates, k, now)
                  && SameRecord(RateLimit.Record(w.limits, w.rates, k, now), w'.rates, k)
                else SameRecord(w.rates, w'.rates, k))
  {
    hide Verification.Verify, VerifyLaws.Heard, VerifyLaws.PassesGates, RateLimit.IsLimited, RateLimit.InWindow,
      VerifyLaws.LicenseOf, VerifyLaws.DeviceOf, VerifyLaws.SignalsOf, VerifyLaws.ActivationsAfter,
      VerifyLaws.DeviceAfter, Verification.Blank;
    VerifyLaws.VerifyEffect(w, req, now);
  }

  lemma OthersRecordNothing(w: World, call: Call, k: RateLimit.Key)
    requires k.endpoint != RateLimit.Challenging && !call.command.SetRateLimit? && !call.command.Verify?
    ensures Step(w, call).0.limits == w.limits && SameRecord(w.rates, Step(w, call).0.rates, k)
  {
    hide Step, Steps.IssueChallenge, RateLimit.IsLimited, RateLimit.InWindow, MayChange;
    WhoMayChange(call.command);
    StepFrame(w, call);
    if call.command.IssueChallenge? {
      ActivationLaws.StepAnswers(w, call);
      IssueChallengeFrame(w, call.command.challenge, call.now);
    }
  }

  /** One step: a caller's record changes only by its own failure, recorded when it was not limited. */
  lemma RecordStep(w: World, call: Call, k: RateLimit.Key)
    requires k.endpoint != RateLimit.Challenging && !call.command.SetRateLimit?
    requires var answer := Step(w, call).1;
             !(call.command.Verify? && Verification.RateKey(call.command.request) == k
               && answer.Verified? && answer.reply.Granted?)
    ensures var (w', answer) := Step(w, call);
            && w'.limits == w.limits
            && (if FailsFor(call, answer, k) then
                  !RateLimit.IsLimited(w.limits, w.rates, k, call.now)
                  && SameRecord(RateLimit.Record(w.limits, w.rates, k, call.now), w'.rates, k)
                else SameRecord(w.rates, w'.rates, k))
  {
    hide Step, Verification.Verify, RateLimit.IsLimited, RateLimit.Record, SameRecord;
    ActivationLaws.StepAnswers(w, call);
    if call.command.Verify? {
      VerifyRecords(w, call.command.request, call.now, k);
    } else {
      OthersRecordNothing(w, call, k);
    }
  }

  /** The record explains a table as far as the caller goes, and its window started no later than now. */
  ghost predicate Explained(w: World, k: RateLimit.Key, times: seq<Time>, now: Time) {
    && RateLimit.Explains(w.limits, w.rates, k, times)
    && (k in w.rates ==> w.rates[k].start <= now)
  }

  lemma ExplainedSame(w: World, w': World, k: RateLimit.Key, times: seq<Time>, now: Time, later: Time)
    requires Explained(w, k, times, now) && now <= later
    requires w'.limits == w.limits && SameRecord(w.rates, w'.rates, k)
    ensures Explained(w', k, times, later)
  {
    hide RateLimit.WindowExplains;
  }

  lemma ExplainedNext(w: World, w': World, k: RateLimit.Key, times: seq<Time>, now: Time, later: Time)
    requires Explained(w, k, times, now) && now <= later && w.limits.Enabled()
    requires !RateLimit.IsLimited(w.limits, w.rates, k, later)
    requires w'.limits == w.limits && SameRecord(RateLimit.Record(w.limits, w.rates, k, later), w'.rates, k)
    ensures Explained(w', k, times + [later], later)
  {
    hide RateLimit.Explains, RateLimit.IsLimited;
    RateLimit.RecordExplains(w.limits, w.rates, k, times, later);
    var recorded := w.(rates := RateLimit.Record(w.limits, w.rates, k, later));
    assert Explained(recorded, k, times + [later], later);
    ExplainedSame(recorded, w', k, times + [later], later, later);
  }

  lemma {:induction false} RunExplained(r: Run, k: RateLimit.Key, m: nat, n: nat)
    requires IsRun(r) && m <= n < |r.states| && k.endpoint != RateLimit.Challenging
    requires r.states[m].limits.Enabled() && k !in r.states[m].rates && NoReset(r, k, m, n)
    ensures r.states[n].limits == r.states[m].limits
    ensures Explained(r.states[n], k, FailureTimes(r, k, m, n), if n == 0 then 0 else r.calls[n - 1].now)
            || (n == m && k !in r.states[n].rates && FailureTimes(r, k, m, n) == [])
    decreases n
  {
    hide Step, FailsFor, Explained, SameRecord, RateLimit.Record, RateLimit.IsLimited;
    if m < n {
      RunExplained(r, k, m, n - 1);
      var w, call := r.states[n - 1], r.calls[n - 1];
      assert Stepped(r, n - 1);
      RecordStep(w, call, k);
      var times := FailureTimes(r, k, m, n - 1);
      var before := if n - 1 == m then call.now else r.calls[n - 2].now;
      if n - 1 == m {
        StartExplained(w, k, call.now);
      }
      if FailsFor(call, r.answers[n - 1], k) {
        ExplainedNext(w, r.states[n], k, times, before, call.now);
      } else {
        assert times + [] == times;
        ExplainedSame(w, r.states[n], k, times, before, call.now);
      }
    }
  }

  lemma StartExplained(w: World, k: RateLimit.Key, now: Time)
    requires k !in w.rates && w.limits.Enabled()
    ensures Explained(w, k, [], now)
  {
  }

  /**
   The sliding-window bound: with a limit of N failures per window, any half-open stretch one window long holds
   at most 2N - 1 recorded failures of one caller between two clearings of its record, whatever else the run does.
   */
  lemma SlidingWindowBound(r: Run, k: RateLimit.Key, m: nat, n: nat, lo: Time)
    requires IsRun(r) && m <= n < |r.states| && k.endpoint != RateLimit.Challenging
    requires r.states[m].limits.Enabled() && k !in r.states[m].rates && NoReset(r, k, m, n)
    ensures var l := r.states[m].limits;
            RateLimit.CountWithin(FailureTimes(r, k, m, n), lo, l.window) <= 2 * l.failures - 1
  {
    hide Step, RateLimit.WindowExplains;
    RunExplained(r, k, m, n);
  }

  /** A limited request is refused and leaves no trace at all. */
  lemma LimitedLeavesNoTrace(w: World, call: Call)
    requires call.command.Verify?
    requires RateLimit.IsLimited(w.limits, w.rates, Verification.RateKey(call.command.request), call.now)
    ensures Step(w, call) == (w, Verified(Verification.Failed(Verification.RateLimited)))
  {
  }

  /**
   Once limited, a caller stays limited to the end of its window: whatever anyone requests meanwhile, its record
   stands still, and each of its own requests is refused without a trace.
   */
  lemma {:induction false} LimitedUntilWindowEnds(r: Run, k: RateLimit.Key, m: nat, n: nat)
    requires IsRun(r) && m <= n < |r.calls| && k.endpoint != RateLimit.Challenging
    requires RateLimit.IsLimited(r.states[m].limits, r.states[m].rates, k, r.calls[m].now)
    requires r.calls[n].now < r.states[m].rates[k].start + r.states[m].limits.window
    requires forall i | m <= i < n :: !r.calls[i].command.SetRateLimit?
    ensures r.states[n].limits == r.states[m].limits && SameRecord(r.states[m].rates, r.states[n].rates, k)
    ensures r.calls[n].command.Verify? && Verification.RateKey(r.calls[n].command.request) == k ==>
              && r.answers[n] == Verified(Verification.Failed(Verification.RateLimited))
              && r.states[n + 1] == r.states[n]
    decreases n
  {
    hide Step;
    if m < n {
      LimitedUntilWindowEnds(r, k, m, n - 1);
      var w, call := r.states[n - 1], r.calls[n - 1];
      assert Stepped(r, n - 1);
      if !(call.command.Verify? && Verification.RateKey(call.command.request) == k) {
        RecordStep(w, call, k);
      }
    }
    assert Stepped(r, n);
    if r.calls[n].command.Verify? && Verification.RateKey(r.calls[n].command.request) == k {
      LimitedLeavesNoTrace(r.states[n], r.calls[n]);
    }
  }
}
