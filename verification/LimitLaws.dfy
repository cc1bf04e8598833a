/** Over whole runs: how many devices a licence has, and exactly which requests take it over its limit. */
module LimitLaws {
  import opened Types
  import opened Lookup
  import opened World
  import opened Invariants
  import opened Machine
  import opened Frames
  import opened ActivationLaws
  import DecisionLaws
  import StandingLaws
  import StepInvariants
  import Verification
  import VerifyLaws

  /** Some activation of the licence that was off before the step is on after it. */
  ghost predicate Revives(w: World, w': World, licenseId: Id) {
    exists k :: 0 <= k < |w.data.activations| && k < |w'.data.activations|
      && w.data.activations[k].licenseId == licenseId
      && w.data.activations[k].status != ActivationActive
      && w'.data.activations[k].status == ActivationActive
  }

  lemma SubsetSize<T>(a: set<T>, b: set<T>)
    requires a <= b
    ensures |a| <= |b|
  {
    assert b == a + (b - a);
  }

  lemma ActiveSubset(a: seq<Activation>, b: seq<Activation>, licenseId: Id)
    requires NoneSwitchedOn(a, b)
    ensures |ActiveDevices(b, licenseId)| <= |ActiveDevices(a, licenseId)|
  {
    forall d | d in ActiveDevices(b, licenseId) ensures d in ActiveDevices(a, licenseId) {
      var x :| x in b && x.licenseId == licenseId && x.status == ActivationActive && x.deviceId == d;
      var k :| 0 <= k < |b| && b[k] == x;
      assert a[k] in a && SameActivation(a[k], b[k]);
    }
    SubsetSize(ActiveDevices(b, licenseId), ActiveDevices(a, licenseId));
  }

  /** Adding or switching on one activation adds at most its own device, and only to its own licence. */
  lemma ActiveAfter(a: seq<Activation>, b: seq<Activation>, k: nat, licenseId: Id)
    requires k <= |a| && |b| == (if k < |a| then |a| else |a| + 1)
    requires forall i | 0 <= i < |a| && i != k :: b[i] == a[i]
    requires k < |a| ==> b[k].licenseId == a[k].licenseId && b[k].deviceId == a[k].deviceId
    ensures |ActiveDevices(b, licenseId)| <= |ActiveDevices(a, licenseId)| + 1
    ensures b[k].licenseId != licenseId || (k < |a| && a[k].status == ActivationActive) ==>
              |ActiveDevices(b, licenseId)| <= |ActiveDevices(a, licenseId)|
  {
    var before, after := ActiveDevices(a, licenseId), ActiveDevices(b, licenseId);
    forall d | d in after
      ensures d in before || (d == b[k].deviceId && b[k].licenseId == licenseId)
    {
      var x :| x in b && x.licenseId == licenseId && x.status == ActivationActive && x.deviceId == d;
      var i :| 0 <= i < |b| && b[i] == x;
      if i != k {
        assert a[i] in a;
      }
    }
    if k < |a| && a[k].status == ActivationActive {
      assert a[k] in a;
    }
    assert after <= before + {b[k].deviceId};
    SubsetSize(after, before + {b[k].deviceId});
    if b[k].licenseId != licenseId || (k < |a| && a[k].status == ActivationActive) {
      assert after <= before;
      SubsetSize(after, before);
    }
  }

  /** One step: the devices of a licence grow only by a revival, or by an activation below the licence's limit. */
  lemma StepActive(w: World, call: Call, licenseId: Id, cap: int)
    requires Valid(w) && forall l | l in w.data.licenses && l.id == licenseId :: l.maxDevices == cap
    ensures var w' := Step(w, call).0;
            var before := |ActiveDevices(w.data.activations, licenseId)|;
            var after := |ActiveDevices(w'.data.activations, licenseId)|;
            || after <= before
            || (after <= before + 1 && Revives(w, w', licenseId))
            || after <= cap
  {
    hide Valid, ActiveDevices, Verification.Verify, VerifyLaws.PassesGates, VerifyLaws.SignalsOf, VerifyLaws.Heard,
      Verification.SeeDevice, NoneSwitchedOn;
    if !call.command.Verify? {
      hide Step;
      OthersSwitchNothingOn(w, call);
      ActiveSubset(w.data.activations, Step(w, call).0.data.activations, licenseId);
    } else {
      StepAnswers(w, call);
      hide Step;
      VerifyActive(w, call.command.request, call.now, licenseId, cap);
    }
  }

  lemma VerifyActive(w: World, req: Verification.Request, now: Time, licenseId: Id, cap: int)
    requires Valid(w) && forall l | l in w.data.licenses && l.id == licenseId :: l.maxDevices == cap
    ensures var w' := Verification.Verify(w, req, now).0;
            var before := |ActiveDevices(w.data.activations, licenseId)|;
            var after := |ActiveDevices(w'.data.activations, licenseId)|;
            || after <= before
            || (after <= before + 1 && Revives(w, w', licenseId))
            || after <= cap
  {
    hide Valid, ActiveDevices, Verification.Verify, VerifyLaws.PassesGates, VerifyLaws.SignalsOf, VerifyLaws.Heard,
      Verification.SeeDevice, Verification.GateLicense;
    VerifyLaws.VerifyEffect(w, req, now);
    if VerifyLaws.Heard(w, req, now) && VerifyLaws.PassesGates(w, req, now) {
      PassedMeans(w, req, now);
      var l, v := VerifyLaws.LicenseOf(w, req, now), VerifyLaws.DeviceOf(w, req, now);
      var a, b := w.data.activations, VerifyLaws.ActivationsAfter(w, req, now);
      var k := ActivationFor(a, l.id, v.id);
      ActiveAfter(a, b, k, licenseId);
    }
  }

  function Max(a: int, b: int): int {
    if a < b then b else a
  }

  /** Switching a known activation on adds its device to those counted. */
  lemma SwitchedOnCounts(a: seq<Activation>, b: seq<Activation>, k: nat)
    requires k < |a| == |b| && forall i | 0 <= i < |a| && i != k :: b[i] == a[i]
    requires SameActivation(a[k], b[k]) && a[k].status != ActivationActive && b[k].status == ActivationActive
    requires forall i | 0 <= i < |a| && i != k :: (a[i].licenseId, a[i].deviceId) != (a[k].licenseId, a[k].deviceId)
    ensures |ActiveDevices(b, a[k].licenseId)| == |ActiveDevices(a, a[k].licenseId)| + 1
  {
    var id, d := a[k].licenseId, a[k].deviceId;
    var before, after := ActiveDevices(a, id), ActiveDevices(b, id);
    assert b[k] in b;
    forall x | x in after ensures x in before + {d} {
      var y :| y in b && y.licenseId == id && y.status == ActivationActive && y.deviceId == x;
      var i :| 0 <= i < |b| && b[i] == y;
      assert a[i] in a;
    }
    forall x | x in before ensures x in after && x != d {
      var y :| y in a && y.licenseId == id && y.status == ActivationActive && y.deviceId == x;
      var i :| 0 <= i < |a| && a[i] == y;
      assert b[i] in b;
    }
    assert after == before + {d};
  }

  /** A revival always counts one more device, whatever the licence's limit: the count is not looked at. */
  lemma RevivalIgnoresLimit(w: World, call: Call, licenseId: Id)
    requires Valid(w) && Revives(w, Step(w, call).0, licenseId)
    ensures |ActiveDevices(Step(w, call).0.data.activations, licenseId)|
            == |ActiveDevices(w.data.activations, licenseId)| + 1
  {
    hide Valid, Step, ActiveDevices, VerifyLaws.PassesGates, VerifyLaws.Heard, Verification.Verify,
      VerifyLaws.SignalsOf, VerifyLaws.LicenseOf, VerifyLaws.DeviceOf, VerifyLaws.DeviceAfter,
      VerifyLaws.RatesAndChallengesAfter, NamesPair;
    var w' := Step(w, call).0;
    var k :| 0 <= k < |w.data.activations| && k < |w'.data.activations| && w.data.activations[k].licenseId == licenseId
      && w.data.activations[k].status != ActivationActive && w'.data.activations[k].status == ActivationActive;
    Revival(w, call, k);
    StepAnswers(w, call);
    VerifyLaws.VerifyEffect(w, call.command.request, call.now);
    PairsDiffer(w, k);
    SwitchedOnCounts(w.data.activations, w'.data.activations, k);
  }

  lemma PairsDiffer(w: World, k: nat)
    requires Valid(w) && k < |w.data.activations|
    ensures var a := w.data.activations;
            && (forall i | 0 <= i < |a| && i != k :: (a[i].licenseId, a[i].deviceId) != (a[k].licenseId, a[k].deviceId))
            && ActivationFor(a, a[k].licenseId, a[k].deviceId) == k
  {
    hide Refers;
    OnePair(w.data.activations, w.data.licenses, w.data.devices, w.nextId, k);
  }

  // ----- which requests switch an activation back on -----

  /**
   What a caller can check beforehand: an activate or verify request with the key of this licence that is admitted,
   for an active unexpired licence of an active application, from a known device that is not blocked and whose
   stored activation of the licence is off.
   */
  ghost predicate Reactivates(w: World, call: Call, licenseId: Id) {
    && call.command.Verify?
    && var req := call.command.request;
       && req.licenseKey != ""
       && DecisionLaws.Admitted(w, req, call.now)
       && DecisionLaws.Licensed(w, req, call.now)
       && DecisionLaws.Presented(w, req).value.id == licenseId
       && exists v, a | v in w.data.devices && a in w.data.activations ::
            && v.fingerprint == Sha256(req.fingerprint) && v.status == DeviceActive
            && a.licenseId == licenseId && a.deviceId == v.id && a.status != ActivationActive
  }

  /** The device gate lets a known pair through by key, off or not. */
  lemma KnownPairPasses(w: World, req: Verification.Request, now: Time)
    requires Valid(w) && req.licenseKey != "" && DecisionLaws.Licensed(w, req, now)
    requires var id := DecisionLaws.Presented(w, req).value.id;
             exists v, a | v in w.data.devices && a in w.data.activations ::
               && v.fingerprint == Sha256(req.fingerprint) && v.status == DeviceActive
               && a.licenseId == id && a.deviceId == v.id && a.status != ActivationActive
    ensures VerifyLaws.PassesGates(w, req, now)
    ensures var l, v := VerifyLaws.LicenseOf(w, req, now), VerifyLaws.DeviceOf(w, req, now);
            var k := ActivationFor(w.data.activations, l.id, v.id);
            && l.id == DecisionLaws.Presented(w, req).value.id
            && k < |w.data.activations| && w.data.activations[k].status != ActivationActive
  {
    hide Valid, Verification.GateLicense, Verification.GateDevice, Verification.SeeDevice, DecisionLaws.Presented,
      DecisionLaws.Licensed;
    DecisionLaws.LicensedIff(w, req, now);
    var g := Verification.GateLicense(w.data, w.issued, req, now);
    var l := w.data.licenses[g.license];
    var v, a :| v in w.data.devices && a in w.data.activations && v.fingerprint == Sha256(req.fingerprint)
      && v.status == DeviceActive && a.licenseId == l.id && a.deviceId == v.id && a.status != ActivationActive;
    StepInvariants.SeeDeviceMeans(w, req, now);
    StepInvariants.PassMeans(w.data, w.issued, req, now);
    DevicesByFingerprint(w, v);
    var k :| 0 <= k < |w.data.activations| && w.data.activations[k] == a;
    PairsDiffer(w, k);
    KeyGateOfKnown(Verification.SeeDevice(w, req, now).0.data, l, VerifyLaws.DeviceOf(w, req, now));
  }

  lemma KeyGateOfKnown(d: Data, l: License, v: Device)
    requires v.status == DeviceActive && ActivationFor(d.activations, l.id, v.id) < |d.activations|
    ensures !Verification.GateDevice(d, l, v, None).Turned?
  {
  }

  lemma DevicesByFingerprint(w: World, v: Device)
    requires Valid(w) && v in w.data.devices
    ensures var i := DeviceByFingerprint(w.data.devices, v.fingerprint); i < |w.data.devices| && w.data.devices[i] == v
  {
  }

  /** A step revives an activation of a licence if and only if its request says so before it is made. */
  lemma RevivesIff(w: World, call: Call, licenseId: Id)
    requires Valid(w)
    ensures Revives(w, Step(w, call).0, licenseId) <==> Reactivates(w, call, licenseId)
  {
    hide Step, Valid, DecisionLaws.Admitted, DecisionLaws.Licensed, DecisionLaws.Presented, VerifyLaws.PassesGates,
      VerifyLaws.Heard, VerifyLaws.LicenseOf, VerifyLaws.DeviceOf, VerifyLaws.SignalsOf;
    if Revives(w, Step(w, call).0, licenseId) {
      var k :| 0 <= k < |w.data.activations| && k < |Step(w, call).0.data.activations|
        && w.data.activations[k].licenseId == licenseId && w.data.activations[k].status != ActivationActive
        && Step(w, call).0.data.activations[k].status == ActivationActive;
      RevivalReactivates(w, call, k);
    }
    if Reactivates(w, call, licenseId) {
      ReactivationRevives(w, call, licenseId);
    }
  }

  lemma RevivalReactivates(w: World, call: Call, k: nat)
    requires Valid(w) && k < |w.data.activations| && w.data.activations[k].status != ActivationActive
    requires k < |Step(w, call).0.data.activations|
    requires Step(w, call).0.data.activations[k].status == ActivationActive
    ensures Reactivates(w, call, w.data.activations[k].licenseId)
  {
    hide Step, Valid, DecisionLaws.Admitted, DecisionLaws.Licensed, DecisionLaws.Presented, VerifyLaws.Heard,
      Verification.GateLicense, Verification.SeeDevice, Verification.GateDevice;
    Revival(w, call, k);
    var req, now := call.command.request, call.now;
    DecisionLaws.AdmittedIff(w, req, now);
    DecisionLaws.LicensedIff(w, req, now);
    StepInvariants.SeeDeviceMeans(w, req, now);
    StepInvariants.PassMeans(w.data, w.issued, req, now);
    var a := w.data.activations[k];
    var v := StoredDevice(w, k);
    var i := DeviceByFingerprint(w.data.devices, Sha256(req.fingerprint));
    if i < |w.data.devices| {
      assert w.data.devices[i] in w.data.devices;
    }
    assert a in w.data.activations;
  }

  lemma StoredDevice(w: World, k: nat) returns (v: Device)
    requires Valid(w) && k < |w.data.activations|
    ensures v in w.data.devices && v.id == w.data.activations[k].deviceId && v.id < w.nextId
  {
    var d := w.data;
    assert Refers(d.activations[k], d.licenses, d.devices);
    v := d.devices[DeviceById(d.devices, d.activations[k].deviceId)];
  }

  lemma ReactivationRevives(w: World, call: Call, licenseId: Id)
    requires Valid(w) && Reactivates(w, call, licenseId)
    ensures Revives(w, Step(w, call).0, licenseId)
  {
    hide Step, Valid, DecisionLaws.Admitted, DecisionLaws.Licensed, DecisionLaws.Presented, VerifyLaws.Heard,
      VerifyLaws.PassesGates, VerifyLaws.SignalsOf, VerifyLaws.LicenseOf, VerifyLaws.DeviceOf, Verification.Verify;
    var req, now := call.command.request, call.now;
    DecisionLaws.AdmittedIff(w, req, now);
    KnownPairPasses(w, req, now);
    StepAnswers(w, call);
    VerifyLaws.VerifyEffect(w, req, now);
    var l, v := VerifyLaws.LicenseOf(w, req, now), VerifyLaws.DeviceOf(w, req, now);
    var k := ActivationFor(w.data.activations, l.id, v.id);
    assert Step(w, call).0.data.activations[k].status == ActivationActive;
  }

  // ----- the limit -----

  /**
   From within its limit a step takes a licence over it if and only if the limit is reached and the request switches
   a stored activation of the licence back on: which a caller can check before making it.
   */
  lemma OverLimitIff(w: World, call: Call, l: License)
    requires Valid(w) && l in w.data.licenses && |ActiveDevices(w.data.activations, l.id)| <= l.maxDevices
    ensures |ActiveDevices(Step(w, call).0.data.activations, l.id)| > l.maxDevices
            <==> |ActiveDevices(w.data.activations, l.id)| == l.maxDevices && Reactivates(w, call, l.id)
  {
    hide Step, ActiveDevices, Revives, Valid, Reactivates;
    RevivesIff(w, call, l.id);
    forall x | x in w.data.licenses && x.id == l.id ensures x.maxDevices == l.maxDevices {
      ValidLicenses(w);
      OneLicense(w.data.licenses, w.nextId, x, l);
    }
    StepActive(w, call, l.id, l.maxDevices);
    if Revives(w, Step(w, call).0, l.id) {
      RevivalIgnoresLimit(w, call, l.id);
    }
  }

  lemma ValidLicenses(w: World)
    requires Valid(w)
    ensures LicensesOk(w.data.licenses, w.nextId)
  {
  }

  /** How many of the first n calls of a run switched an activation of the licence back on. */
  ghost function Reactivations(r: Run, licenseId: Id, n: nat): nat
    requires n <= |r.calls| <= |r.states|
  {
    if n == 0 then 0
    else Reactivations(r, licenseId, n - 1) + (if Reactivates(r.states[n - 1], r.calls[n - 1], licenseId) then 1 else 0)
  }

  lemma {:induction false} ActiveBound(r: Run, licenseId: Id, cap: int, n: nat)
    requires IsRun(r) && Valid(r.states[0]) && n < |r.states|
    requires forall i, l | 0 <= i <= n && l in r.states[i].data.licenses && l.id == licenseId :: l.maxDevices == cap
    ensures |ActiveDevices(r.states[n].data.activations, licenseId)|
            <= Max(|ActiveDevices(r.states[0].data.activations, licenseId)|, cap) + Reactivations(r, licenseId, n)
    decreases n
  {
    hide Valid, Step, ActiveDevices, Revives, Reactivates;
    if n > 0 {
      ActiveBound(r, licenseId, cap, n - 1);
      StepInvariants.RunKeeps(r, n - 1, n - 1);
      StepActive(r.states[n - 1], r.calls[n - 1], licenseId, cap);
      RevivesIff(r.states[n - 1], r.calls[n - 1], licenseId);
      assert Stepped(r, n - 1);
    }
  }

  /** A licence's limit is the same wherever in the run the licence is found. */
  lemma SameCap(w: World, w': World, licenseId: Id)
    requires Valid(w') && Grows(w, w')
    ensures forall l, l' | l in w.data.licenses && l' in w'.data.licenses && l.id == licenseId == l'.id ::
              l.maxDevices == l'.maxDevices
  {
    forall l, l' | l in w.data.licenses && l' in w'.data.licenses && l.id == licenseId == l'.id
      ensures l.maxDevices == l'.maxDevices
    {
      var i :| 0 <= i < |w.data.licenses| && w.data.licenses[i] == l;
      var same := w'.data.licenses[i];
      assert same in w'.data.licenses;
      OneLicense(w'.data.licenses, w'.nextId, same, l');
    }
  }

  /**
   The device limit over whole runs: a licence has never more active devices than its limit (or what the run
   started with), plus one for each call that switched an activation of it back on.
   */
  lemma DeviceLimit(r: Run, l: License, n: nat)
    requires IsRun(r) && Valid(r.states[0]) && n < |r.states| && l in r.states[n].data.licenses
    ensures |ActiveDevices(r.states[n].data.activations, l.id)|
            <= Max(|ActiveDevices(r.states[0].data.activations, l.id)|, l.maxDevices) + Reactivations(r, l.id, n)
  {
    hide Valid, Grows, Step, ActiveDevices, Reactivates;
    forall i | 0 <= i <= n
      ensures forall x | x in r.states[i].data.licenses && x.id == l.id :: x.maxDevices == l.maxDevices
    {
      StepInvariants.RunKeeps(r, i, n);
      SameCap(r.states[i], r.states[n], l.id);
    }
    ActiveBound(r, l.id, l.maxDevices, n);
  }

  /** The limit is a limit for every run, from a start within it, none of whose calls switches an activation back on. */
  lemma DeviceLimitWithoutReactivations(r: Run, l: License, n: nat)
    requires IsRun(r) && Valid(r.states[0]) && n < |r.states| && l in r.states[n].data.licenses
    requires |ActiveDevices(r.states[0].data.activations, l.id)| <= l.maxDevices
    requires forall i | 0 <= i < n :: !Reactivates(r.states[i], r.calls[i], l.id)
    ensures |ActiveDevices(r.states[n].data.activations, l.id)| <= l.maxDevices
  {
    DeviceLimit(r, l, n);
    NoReactivations(r, l.id, n);
  }

  lemma {:induction false} RunAllOn(r: Run, licenseId: Id, n: nat)
    requires IsRun(r) && n < |r.states| && StandingLaws.AllOn(r.states[0].data.activations, licenseId)
    requires forall i | 0 <= i < n :: !StandingLaws.TakesOff(r.calls[i].command, licenseId)
    ensures StandingLaws.AllOn(r.states[n].data.activations, licenseId)
  {
    hide Step, StandingLaws.AllOn, StandingLaws.TakesOff;
    if n > 0 {
      RunAllOn(r, licenseId, n - 1);
      assert Stepped(r, n - 1);
      StandingLaws.StepAllOn(r.states[n - 1], r.calls[n - 1], licenseId);
    }
  }

  /**
   The limit told from the requests alone: as long as nobody revokes the licence, unbinds a device or deactivates
   one of its tokens, it holds, whatever else is requested.
   */
  lemma DeviceLimitUntilSwitchedOff(r: Run, l: License, n: nat)
    requires IsRun(r) && Valid(r.states[0]) && n < |r.states| && l in r.states[n].data.licenses
    requires |ActiveDevices(r.states[0].data.activations, l.id)| <= l.maxDevices
    requires StandingLaws.AllOn(r.states[0].data.activations, l.id)
    requires forall i | 0 <= i < n :: !StandingLaws.TakesOff(r.calls[i].command, l.id)
    ensures |ActiveDevices(r.states[n].data.activations, l.id)| <= l.maxDevices
  {
    hide Step, Valid, ActiveDevices;
    forall i | 0 <= i < n ensures !Reactivates(r.states[i], r.calls[i], l.id) {
      RunAllOn(r, l.id, i);
      NothingToReactivate(r.states[i], r.calls[i], l.id);
    }
    DeviceLimitWithoutReactivations(r, l, n);
  }

  lemma NothingToReactivate(w: World, call: Call, licenseId: Id)
    requires StandingLaws.AllOn(w.data.activations, licenseId)
    ensures !Reactivates(w, call, licenseId)
  {
    hide DecisionLaws.Admitted, DecisionLaws.Licensed, DecisionLaws.Presented;
  }

  lemma {:induction false} NoReactivations(r: Run, licenseId: Id, n: nat)
    requires n <= |r.calls| <= |r.states|
    requires forall i | 0 <= i < n :: !Reactivates(r.states[i], r.calls[i], licenseId)
    ensures Reactivations(r, licenseId, n) == 0
  {
    hide Reactivates;
    if n > 0 {
      NoReactivations(r, licenseId, n - 1);
    }
  }
}
