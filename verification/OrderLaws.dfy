/** What an admin's orders do to a licence, a device and their activations, and what they are worth in every run. */
module OrderLaws {
  import opened Types
  import opened Lookup
  import opened World
  import opened Invariants
  import opened Machine
  import StandingLaws
  import StepInvariants
  import Steps

  // ----- licences -----

  function StatusOrdered(action: Steps.LicenseAction): LicenseStatus {
    match action
    case Suspend => Suspended
    case Revoke => Revoked
    case Resume => Active
  }

  /** The licence as ordered, every other as it was. */
  ghost predicate LicenseOrdered(a: seq<License>, b: seq<License>, id: Id, action: Steps.LicenseAction, now: Time) {
    && |b| == |a|
    && forall k | 0 <= k < |a| ::
         b[k] == if a[k].id == id then a[k].(status := StatusOrdered(action), updatedAt := now) else a[k]
  }

  /** A revocation blocks every activation of the licence; nothing else is done to any activation. */
  ghost predicate ActivationsOrdered(a: seq<Activation>, b: seq<Activation>, id: Id, action: Steps.LicenseAction) {
    && |b| == |a|
    && forall k | 0 <= k < |a| ::
         b[k] == if action == Steps.Revoke && a[k].licenseId == id then a[k].(status := ActivationBlocked) else a[k]
  }

  lemma LicenseAction(w: World, id: Id, action: Steps.LicenseAction, admin: string, now: Time)
    requires Valid(w)
    ensures var (w', s) := Steps.ActOnLicense(w, id, action, admin, now);
            && (s == Steps.Ok <==> exists l | l in w.data.licenses :: l.id == id)
            && (s != Steps.Ok ==> s == Steps.LicenseNotFound && w' == w)
            && (s == Steps.Ok ==>
                  && LicenseOrdered(w.data.licenses, w'.data.licenses, id, action, now)
                  && ActivationsOrdered(w.data.activations, w'.data.activations, id, action)
                  && w'.data.devices == w.data.devices)
  {
    OneLicense(w);
  }

  lemma OneLicense(w: World)
    requires Valid(w)
    ensures forall i, j | 0 <= i < j < |w.data.licenses| :: w.data.licenses[i].id != w.data.licenses[j].id
  {
  }

  /** Every order on a licence, in every run: known or not, what it leaves of licences and activations. */
  lemma LicenseOrders(r: Run, m: nat)
    requires IsRun(r) && Valid(r.states[0]) && m < |r.calls| && r.calls[m].command.ActOnLicense?
    ensures var c, d, d' := r.calls[m].command, r.states[m].data, r.states[m + 1].data;
            && (r.answers[m] == Done(Steps.Ok) <==> exists l | l in d.licenses :: l.id == c.licenseId)
            && (r.answers[m] != Done(Steps.Ok) ==> r.states[m + 1] == r.states[m])
            && (r.answers[m] == Done(Steps.Ok) ==>
                  && LicenseOrdered(d.licenses, d'.licenses, c.licenseId, c.licenseAction, r.calls[m].now)
                  && ActivationsOrdered(d.activations, d'.activations, c.licenseId, c.licenseAction))
  {
    hide Valid, LicenseOrdered, ActivationsOrdered, Steps.ActOnLicense;
    assert Stepped(r, m);
    StepInvariants.RunKeeps(r, m, m);
    var c := r.calls[m].command;
    LicenseAction(r.states[m], c.licenseId, c.licenseAction, r.calls[m].adminId, r.calls[m].now);
  }

  /**
   A suspension or revocation answered Ok holds: from the next call on the licence gets no grant and no capability
   decision, whatever else the run holds, until an admin resumes it.
   */
  lemma StoppedFromThenOn(r: Run, m: nat, n: nat)
    requires IsRun(r) && Valid(r.states[0]) && m < n < |r.calls|
    requires r.calls[m].command.ActOnLicense? && r.calls[m].command.licenseAction != Steps.Resume
    requires r.answers[m] == Done(Steps.Ok)
    requires forall i | m < i < n :: StandingLaws.ResumedBy(r.calls[i].command) != Some(r.calls[m].command.licenseId)
    ensures var id := r.calls[m].command.licenseId;
            && (r.answers[n].Verified? && r.answers[n].reply.Granted? ==> r.answers[n].reply.claims.licenseId != id)
            && (r.calls[n].command.CapabilityCheck? && r.calls[n].command.check.token.Some?
                && r.calls[n].command.check.token.value.licenseId == id ==>
                  r.answers[n].Decided? && r.answers[n].status != Steps.Ok)
  {
    hide Step, Valid, StandingLaws.ResumedBy;
    LicenseOrders(r, m);
    var id := r.calls[m].command.licenseId;
    var l :| l in r.states[m].data.licenses && l.id == id;
    var k :| 0 <= k < |r.states[m].data.licenses| && r.states[m].data.licenses[k] == l;
    assert r.states[m + 1].data.licenses[k].status != Active && r.states[m + 1].data.licenses[k].id == id;
    StandingLaws.InertUntilResumed(r, m + 1, n, k);
  }

  // ----- devices -----

  function DeviceAsOrdered(v: Device, action: Steps.DeviceAction, now: Time): Device {
    match action
    case Block => v.(status := DeviceBlocked, lastSeenAt := now)
    case Unblock => v.(status := DeviceActive, lastSeenAt := now)
    case Unbind => v.(lastSeenAt := now)
  }

  /** An unbinding takes the device's active activations out of use; nothing else is done to any activation. */
  function ActivationUnbound(a: Activation, id: Id, action: Steps.DeviceAction, now: Time): Activation {
    if action == Steps.Unbind && a.deviceId == id && a.status == ActivationActive
    then a.(status := Deactivated, deactivatedAt := Some(now), lastVerifiedAt := now) else a
  }

  ghost predicate DevicesOrdered(a: seq<Device>, b: seq<Device>, id: Id, action: Steps.DeviceAction, now: Time) {
    && |b| == |a|
    && forall k | 0 <= k < |a| :: b[k] == if a[k].id == id then DeviceAsOrdered(a[k], action, now) else a[k]
  }

  ghost predicate UnboundAsOrdered(a: seq<Activation>, b: seq<Activation>, id: Id, action: Steps.DeviceAction, now: Time)
  {
    && |b| == |a|
    && forall k | 0 <= k < |a| :: b[k] == ActivationUnbound(a[k], id, action, now)
  }

  ghost predicate DeviceOrdered(d: Data, d': Data, id: Id, action: Steps.DeviceAction, now: Time) {
    && DevicesOrdered(d.devices, d'.devices, id, action, now)
    && UnboundAsOrdered(d.activations, d'.activations, id, action, now)
  }

  lemma DeviceActionDevices(w: World, id: Id, action: Steps.DeviceAction, admin: string, now: Time)
    requires Valid(w)
    ensures var (w', s) := Steps.ActOnDevice(w, id, action, admin, now);
            && (s == Steps.Ok <==> exists v | v in w.data.devices :: v.id == id)
            && (s != Steps.Ok ==> s == Steps.DeviceNotFound && w' == w)
            && (s == Steps.Ok ==> DevicesOrdered(w.data.devices, w'.data.devices, id, action, now))
  {
    hide Steps.UnbindActivations;
    OneDevice(w);
    hide Valid;
  }

  lemma DeviceActionActivations(w: World, id: Id, action: Steps.DeviceAction, admin: string, now: Time)
    requires Steps.ActOnDevice(w, id, action, admin, now).1 == Steps.Ok
    ensures var w' := Steps.ActOnDevice(w, id, action, admin, now).0;
            UnboundAsOrdered(w.data.activations, w'.data.activations, id, action, now)
            && w'.data.licenses == w.data.licenses
  {
    hide DeviceById;
  }

  lemma DeviceAction(w: World, id: Id, action: Steps.DeviceAction, admin: string, now: Time)
    requires Valid(w)
    ensures var (w', s) := Steps.ActOnDevice(w, id, action, admin, now);
            && (s == Steps.Ok <==> exists v | v in w.data.devices :: v.id == id)
            && (s != Steps.Ok ==> s == Steps.DeviceNotFound && w' == w)
            && (s == Steps.Ok ==> DeviceOrdered(w.data, w'.data, id, action, now) && w'.data.licenses == w.data.licenses)
  {
    hide Steps.ActOnDevice, DevicesOrdered, UnboundAsOrdered, Valid;
    DeviceActionDevices(w, id, action, admin, now);
    if Steps.ActOnDevice(w, id, action, admin, now).1 == Steps.Ok {
      DeviceActionActivations(w, id, action, admin, now);
    }
  }

  lemma OneDevice(w: World)
    requires Valid(w)
    ensures forall i, j | 0 <= i < j < |w.data.devices| :: w.data.devices[i].id != w.data.devices[j].id
  {
  }

  /** Every order on a device, in every run. */
  lemma DeviceOrders(r: Run, m: nat)
    requires IsRun(r) && Valid(r.states[0]) && m < |r.calls| && r.calls[m].command.ActOnDevice?
    ensures var c, d, d' := r.calls[m].command, r.states[m].data, r.states[m + 1].data;
            && (r.answers[m] == Done(Steps.Ok) <==> exists v | v in d.devices :: v.id == c.deviceId)
            && (r.answers[m] != Done(Steps.Ok) ==> r.states[m + 1] == r.states[m])
            && (r.answers[m] == Done(Steps.Ok) ==> DeviceOrdered(d, d', c.deviceId, c.deviceAction, r.calls[m].now))
  {
    hide Valid, DeviceOrdered, Steps.ActOnDevice;
    assert Stepped(r, m);
    StepInvariants.RunKeeps(r, m, m);
    var c := r.calls[m].command;
    DeviceAction(r.states[m], c.deviceId, c.deviceAction, r.calls[m].adminId, r.calls[m].now);
  }

  /** A block answered Ok holds: from the next call on the device gets no grant, under any licence, until an unblock. */
  lemma DeviceBlockedFromThenOn(r: Run, m: nat, n: nat)
    requires IsRun(r) && Valid(r.states[0]) && m < n < |r.calls|
    requires r.calls[m].command.ActOnDevice? && r.calls[m].command.deviceAction == Steps.Block
    requires r.answers[m] == Done(Steps.Ok)
    requires forall i | m < i < n :: StandingLaws.UnblockedBy(r.calls[i].command) != Some(r.calls[m].command.deviceId)
    requires r.answers[n].Verified? && r.answers[n].reply.Granted?
    ensures r.answers[n].reply.claims.deviceId != r.calls[m].command.deviceId
  {
    hide Step, Valid, StandingLaws.UnblockedBy;
    DeviceOrders(r, m);
    var id := r.calls[m].command.deviceId;
    var v :| v in r.states[m].data.devices && v.id == id;
    var k :| 0 <= k < |r.states[m].data.devices| && r.states[m].data.devices[k] == v;
    assert r.states[m + 1].data.devices[k].status == DeviceBlocked && r.states[m + 1].data.devices[k].id == id;
    StandingLaws.BlockedUntilUnblocked(r, m + 1, n, k);
  }
}
