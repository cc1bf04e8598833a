/** The server's whole state as a value, and the edits all its requests are made of. */
module World {
  import opened Types
  import Challenges
  import RateLimit

  /**
   `issued` stands for the signing key: a token is genuine when its claims are among those signed.
   `nextId` is the next identifier newID will draw.
   */
  datatype World = World(
    data: Data, challenges: Challenges.Table, rates: RateLimit.Table, limits: RateLimit.Limits,
    issued: set<Claims>, nextId: Id)

  // ----- edits -----

  function WithRisk(w: World, appId: string, deviceId: Option<Id>, licenseId: Id, eventType: EventType,
                    severity: Severity, action: EventAction, now: Time): World
  {
    var e := RiskEvent(w.nextId, appId, deviceId, licenseId, eventType, severity, action, now, None);
    w.(data := w.data.(riskEvents := w.data.riskEvents + [e]), nextId := w.nextId + 1)
  }

  function WithAudit(w: World, adminId: string, action: AuditAction, target: AuditTarget, now: Time): World {
    var a := AuditLog(w.nextId, adminId, action, target, now);
    w.(data := w.data.(auditLogs := w.data.auditLogs + [a]), nextId := w.nextId + 1)
  }

  function WithReport(w: World, appId: string, deviceId: Id, releaseId: Option<Id>, platform: string,
                      integrity: Integrity, now: Time): World
  {
    var r := Report(w.nextId, appId, deviceId, releaseId, platform, integrity, now);
    w.(data := w.data.(reports := w.data.reports + [r]), nextId := w.nextId + 1)
  }

  function WithLicense(w: World, i: nat, l: License): World
    requires i < |w.data.licenses|
  {
    w.(data := w.data.(licenses := w.data.licenses[i := l]))
  }

  function WithDevice(w: World, i: nat, d: Device): World
    requires i < |w.data.devices|
  {
    w.(data := w.data.(devices := w.data.devices[i := d]))
  }

  function WithActivations(w: World, activations: seq<Activation>): World {
    w.(data := w.data.(activations := activations))
  }

  function WithResolved(w: World, i: nat, now: Time): World
    requires i < |w.data.riskEvents|
  {
    var e := w.data.riskEvents[i].(resolvedAt := Some(now));
    w.(data := w.data.(riskEvents := w.data.riskEvents[i := e]))
  }

  function AddLicense(w: World, l: License): World {
    w.(data := w.data.(licenses := w.data.licenses + [l]), nextId := w.nextId + 1)
  }

  function AddDevice(w: World, d: Device): World {
    w.(data := w.data.(devices := w.data.devices + [d]), nextId := w.nextId + 1)
  }

  function AddActivation(w: World, a: Activation): World {
    w.(data := w.data.(activations := w.data.activations + [a]), nextId := w.nextId + 1)
  }

  function AddSdkKey(w: World, k: SdkKey): World {
    w.(data := w.data.(sdkKeys := w.data.sdkKeys + [k]), nextId := w.nextId + 1)
  }

  function AddRelease(w: World, r: Release): World {
    w.(data := w.data.(releases := w.data.releases + [r]), nextId := w.nextId + 1)
  }

  // ----- devices counted against a licence -----

  /** The devices with an active activation of the licence. */
  function ActiveDevices(activations: seq<Activation>, licenseId: Id): set<Id> {
    set a | a in activations && a.licenseId == licenseId && a.status == ActivationActive :: a.deviceId
  }
}
