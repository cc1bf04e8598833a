/** The admin's authorization diagnostic, and what its findings say about a client's next verification. */
module Diagnostics {
  import opened Types
  import opened Lookup
  import opened World
  import opened Invariants
  import opened Machine
  import StepInvariants
  import Verification
  import VerifyLaws

  datatype Query = Query(
    appId: string, licenseId: Option<Id>, licenseKey: string, deviceId: Option<Id>, installId: string)

  datatype Code =
    | AppIsActive | AppNotActive
    | LicenseNotProvided | LicenseNotFound | LicenseAppMismatch | LicenseNotActive | LicenseHasExpired | LicenseIsActive
    | DeviceNotProvided | DeviceNotFound | DeviceNotActive | DeviceIsActive
    | ActivationNotFound | ActivationNotActive | ActivationIsActive

  datatype FindingStatus = Fine | Blocked | Missing

  function StatusOf(c: Code): FindingStatus {
    if c in {AppIsActive, LicenseIsActive, DeviceIsActive, ActivationIsActive} then Fine
    else if c in {LicenseNotProvided, LicenseNotFound, DeviceNotProvided, DeviceNotFound, ActivationNotFound} then Missing
    else Blocked
  }

  /** What was found, as indices into the stored lists, and the four findings about it. */
  datatype Diagnosis = Diagnosis(
    license: Option<nat>, device: Option<nat>, activation: Option<nat>, findings: seq<Code>)

  predicate AllFine(findings: seq<Code>) {
    forall c | c in findings :: StatusOf(c) == Fine
  }

  // ----- the searches -----

  function At<T>(s: seq<T>, i: nat): (r: Option<nat>)
    ensures r.Some? <==> i < |s|
    ensures r.Some? ==> r.value == i
  {
    if i < |s| then Some(i) else None
  }

  function FindLicense(d: Data, q: Query): (r: Option<nat>)
    ensures r.Some? ==> r.value < |d.licenses|
  {
    if q.licenseId.Some? then At(d.licenses, LicenseById(d.licenses, q.licenseId.value))
    else if q.licenseKey != "" then At(d.licenses, LicenseByKey(d.licenses, q.licenseKey))
    else None
  }

  /** The licence's most recently verified activation; the earliest stored of several. */
  function LatestActivation(activations: seq<Activation>, licenseId: Id): (r: Option<nat>)
    ensures r.Some? ==> r.value < |activations| && activations[r.value].licenseId == licenseId
  {
    if activations == [] then None
    else
      var n := |activations| - 1;
      var before := LatestActivation(activations[..n], licenseId);
      if activations[n].licenseId != licenseId then before
      else if before.None? || activations[n].lastVerifiedAt > activations[before.value].lastVerifiedAt then Some(n)
      else before
  }

  /** No activation of the licence was verified later, and none stored earlier was verified as late. */
  lemma {:induction false} LatestIsLatest(activations: seq<Activation>, licenseId: Id)
    ensures var r := LatestActivation(activations, licenseId);
            && (r.None? <==> forall a | a in activations :: a.licenseId != licenseId)
            && (r.Some? ==>
                  && (forall a | a in activations && a.licenseId == licenseId ::
                        a.lastVerifiedAt <= activations[r.value].lastVerifiedAt)
                  && (forall k | 0 <= k < r.value && activations[k].licenseId == licenseId ::
                        activations[k].lastVerifiedAt < activations[r.value].lastVerifiedAt))
  {
    if activations != [] {
      var n := |activations| - 1;
      LatestIsLatest(activations[..n], licenseId);
      assert activations == activations[..n] + [activations[n]];
      assert forall a :: a in activations <==> a in activations[..n] || a == activations[n];
      assert forall k | 0 <= k < n :: activations[k] in activations[..n];
    }
  }

  function DeviceOf(d: Data, id: Id): (r: Option<nat>)
    ensures r.Some? ==> r.value < |d.devices| && d.devices[r.value].id == id
  {
    At(d.devices, DeviceById(d.devices, id))
  }

  function FindDevice(d: Data, q: Query, license: Option<nat>): (r: Option<nat>)
    requires license.Some? ==> license.value < |d.licenses|
    ensures r.Some? ==> r.value < |d.devices|
  {
    if q.deviceId.Some? then DeviceOf(d, q.deviceId.value)
    else if q.installId != "" then At(d.devices, DeviceByInstall(d.devices, Sha256(q.installId)))
    else if license.None? then None
    else
      var a := LatestActivation(d.activations, d.licenses[license.value].id);
      if a.None? then None else DeviceOf(d, d.activations[a.value].deviceId)
  }

  /** The activation of the pair or, failing that, the licence's latest, whose device stands in for a missing one. */
  function FindPair(d: Data, q: Query, license: Option<nat>): (r: (Option<nat>, Option<nat>))
    requires license.Some? ==> license.value < |d.licenses|
    ensures r.0.Some? ==> r.0.value < |d.devices|
    ensures r.1.Some? ==> r.1.value < |d.activations|
  {
    var device := FindDevice(d, q, license);
    if license.None? then (device, None)
    else
      var id := d.licenses[license.value].id;
      var own := if device.None? then None
                 else At(d.activations, ActivationFor(d.activations, id, d.devices[device.value].id));
      if own.Some? then (device, own)
      else
        var latest := LatestActivation(d.activations, id);
        (if latest.Some? && device.None? then DeviceOf(d, d.activations[latest.value].deviceId) else device, latest)
  }

  // ----- the findings -----

  function AppFinding(a: App): Code {
    if a.status == AppActive then AppIsActive else AppNotActive
  }

  function LicenseFinding(d: Data, q: Query, license: Option<nat>, now: Time): Code
    requires license.Some? ==> license.value < |d.licenses|
  {
    if license.None? then
      if q.licenseId.Some? || q.licenseKey != "" then LicenseNotFound else LicenseNotProvided
    else
      var l := d.licenses[license.value];
      if l.appId != q.appId then LicenseAppMismatch
      else if l.status != Active then LicenseNotActive
      else if now > l.expiresAt then LicenseHasExpired
      else LicenseIsActive
  }

  function DeviceFinding(d: Data, q: Query, device: Option<nat>): Code
    requires device.Some? ==> device.value < |d.devices|
  {
    if device.None? then
      if q.deviceId.Some? || q.installId != "" then DeviceNotFound else DeviceNotProvided
    else if d.devices[device.value].status == DeviceActive then DeviceIsActive
    else DeviceNotActive
  }

  function ActivationFinding(d: Data, activation: Option<nat>): Code
    requires activation.Some? ==> activation.value < |d.activations|
  {
    if activation.None? then ActivationNotFound
    else if d.activations[activation.value].status == ActivationActive then ActivationIsActive
    else ActivationNotActive
  }

  /** None where the application is unknown. */
  function Diagnose(d: Data, q: Query, now: Time): (r: Option<Diagnosis>)
    ensures r.Some? ==> |r.value.findings| == 4
  {
    var app := AppNamed(d.apps, q.appId);
    if app == |d.apps| then None
    else
      var license := FindLicense(d, q);
      var (device, activation) := FindPair(d, q, license);
      Some(Diagnosis(license, device, activation,
        [ AppFinding(d.apps[app]), LicenseFinding(d, q, license, now), DeviceFinding(d, q, device),
          ActivationFinding(d, activation) ]))
  }

  // ----- what was found, and what is found of it -----

  /** The licence named: by its ID or, without one, by its key. */
  predicate NamesLicense(q: Query, l: License) {
    if q.licenseId.Some? then l.id == q.licenseId.value else q.licenseKey != "" && l.keyHash == Sha256(q.licenseKey)
  }

  /** The device named: by its ID or, without one, by its installation. */
  predicate NamesDevice(q: Query, v: Device) {
    if q.deviceId.Some? then v.id == q.deviceId.value else q.installId != "" && v.installHash == Sha256(q.installId)
  }

  /** The first of the list with the property, or nothing if there is none. */
  ghost predicate FirstOf<T(!new)>(s: seq<T>, p: T -> bool, found: Option<nat>) {
    match found
    case Some(k) => k < |s| && p(s[k]) && forall j | 0 <= j < k :: !p(s[j])
    case None => forall j | 0 <= j < |s| :: !p(s[j])
  }

  /** What is named is found, the first that fits. */
  lemma NamedFound(d: Data, q: Query, license: Option<nat>)
    requires license == FindLicense(d, q)
    ensures FirstOf(d.licenses, (l: License) => NamesLicense(q, l), license)
    ensures q.deviceId.Some? || q.installId != "" ==>
              FirstOf(d.devices, (v: Device) => NamesDevice(q, v), FindDevice(d, q, license))
    ensures q.deviceId.None? && q.installId == "" && license.None? ==> FindDevice(d, q, license).None?
  {
  }

  predicate OfPair(a: Activation, l: License, v: Device) {
    a.licenseId == l.id && a.deviceId == v.id
  }

  /** The query names a stored device. */
  ghost predicate KnownDevice(d: Data, q: Query) {
    exists v | v in d.devices :: NamesDevice(q, v)
  }

  /**
   The searches: a licence or device named is the first that fits; without such a device, that of the licence's latest
   activation stands in; the activation is the pair's own or, where it has none, the licence's latest.
   */
  lemma SearchesTold(d: Data, q: Query, x: Diagnosis, now: Time)
    requires Diagnose(d, q, now) == Some(x)
    ensures FirstOf(d.licenses, (l: License) => NamesLicense(q, l), x.license)
    ensures KnownDevice(d, q) ==> FirstOf(d.devices, (v: Device) => NamesDevice(q, v), x.device)
    ensures x.license.None? ==> x.activation.None? && (KnownDevice(d, q) || x.device.None?)
    ensures x.license.Some? ==>
              var l := d.licenses[x.license.value];
              var latest := LatestActivation(d.activations, l.id);
              && (!KnownDevice(d, q) ==> LatestStandsIn(d, latest, x.device))
              && if x.device.Some? && exists a | a in d.activations :: OfPair(a, l, d.devices[x.device.value]) then
                   x.activation.Some? && OfPair(d.activations[x.activation.value], l, d.devices[x.device.value])
                 else x.activation == latest
  {
    hide AppFinding, LicenseFinding, DeviceFinding, ActivationFinding, FindLicense, FindDevice, NamesDevice, NamesLicense,
      LatestStandsIn, OfPair;
    NamedFound(d, q, x.license);
    DeviceFound(d, q, x.license);
    if x.license.Some? {
      PairFound(d, q, x.license.value);
    }
  }

  /** The device of the latest activation, where there is one and it is stored. */
  ghost predicate LatestStandsIn(d: Data, latest: Option<nat>, device: Option<nat>)
    requires latest.Some? ==> latest.value < |d.activations|
  {
    if latest.None? then device.None?
    else FirstOf(d.devices, (v: Device) => v.id == d.activations[latest.value].deviceId, device)
  }

  lemma DeviceFound(d: Data, q: Query, license: Option<nat>)
    requires license.Some? ==> license.value < |d.licenses|
    ensures var found := FindDevice(d, q, license);
            if KnownDevice(d, q) then found.Some? && FirstOf(d.devices, (v: Device) => NamesDevice(q, v), found)
            else if q.deviceId.Some? || q.installId != "" then found.None?
            else if license.None? then found.None?
            else LatestStandsIn(d, LatestActivation(d.activations, d.licenses[license.value].id), found)
  {
    hide LatestActivation;
    assert forall k | 0 <= k < |d.devices| :: d.devices[k] in d.devices;
  }

  lemma PairFound(d: Data, q: Query, license: nat)
    requires license < |d.licenses|
    ensures var (device, activation) := FindPair(d, q, Some(license));
            var l, found := d.licenses[license], FindDevice(d, q, Some(license));
            var latest := LatestActivation(d.activations, l.id);
            && (found.Some? ==> device == found)
            && (found.None? ==> LatestStandsIn(d, latest, device))
            && if device.Some? && exists a | a in d.activations :: OfPair(a, l, d.devices[device.value]) then
                 activation.Some? && OfPair(d.activations[activation.value], l, d.devices[device.value])
               else activation == latest
  {
    hide FindDevice;
    LatestIsLatest(d.activations, d.licenses[license].id);
    assert forall k | 0 <= k < |d.activations| :: d.activations[k] in d.activations;
  }

  /** A finding is missing where nothing was found, and fine only where what was found is active. */
  lemma StatusesTold(d: Data, q: Query, x: Diagnosis, now: Time)
    requires Diagnose(d, q, now) == Some(x)
    ensures StatusOf(x.findings[0]) != Missing
    ensures StatusOf(x.findings[0]) == Fine <==> x.findings[0] == AppIsActive
    ensures StatusOf(x.findings[1]) == Missing <==> x.license.None?
    ensures StatusOf(x.findings[1]) == Fine <==> x.findings[1] == LicenseIsActive
    ensures StatusOf(x.findings[2]) == Missing <==> x.device.None?
    ensures StatusOf(x.findings[2]) == Fine <==> x.findings[2] == DeviceIsActive
    ensures StatusOf(x.findings[3]) == Missing <==> x.activation.None?
    ensures StatusOf(x.findings[3]) == Fine <==> x.findings[3] == ActivationIsActive
  {
    hide FindLicense, FindPair, AppNamed;
  }

  /** The four findings, each told from the record found or from what was asked for. */
  lemma FindingsTold(d: Data, q: Query, x: Diagnosis, now: Time)
    requires Diagnose(d, q, now) == Some(x)
    ensures AppNamed(d.apps, q.appId) < |d.apps| && |x.findings| == 4
    ensures x.findings[0] == if d.apps[AppNamed(d.apps, q.appId)].status == AppActive then AppIsActive else AppNotActive
    ensures match x.license
            case None =>
              x.findings[1] == if q.licenseId.None? && q.licenseKey == "" then LicenseNotProvided else LicenseNotFound
            case Some(k) =>
              k < |d.licenses|
              && var l := d.licenses[k];
                 && (x.findings[1] == LicenseAppMismatch <==> l.appId != q.appId)
                 && (x.findings[1] == LicenseNotActive <==> l.appId == q.appId && l.status != Active)
                 && (x.findings[1] == LicenseHasExpired <==>
                       l.appId == q.appId && l.status == Active && now > l.expiresAt)
                 && (x.findings[1] == LicenseIsActive <==> l.appId == q.appId && l.status == Active && now <= l.expiresAt)
    ensures match x.device
            case None =>
              x.findings[2] == if q.deviceId.None? && q.installId == "" then DeviceNotProvided else DeviceNotFound
            case Some(k) =>
              && k < |d.devices|
              && x.findings[2] == if d.devices[k].status == DeviceBlocked then DeviceNotActive else DeviceIsActive
    ensures match x.activation
            case None => x.findings[3] == ActivationNotFound
            case Some(k) =>
              && k < |d.activations|
              && x.findings[3] == if d.activations[k].status == ActivationActive then ActivationIsActive
                                  else ActivationNotActive
  {
    hide FindLicense, FindPair, AppNamed;
  }

  // ----- what the findings are worth -----

  /**
   A genuine-token request that the diagnosed client could send: it names the diagnosed application, carries a
   token signed for the licence and device found, and comes from that device.
   */
  predicate ClientOf(w: World, q: Query, x: Diagnosis, req: Verification.Request) {
    && x.license.Some? && x.license.value < |w.data.licenses|
    && x.device.Some? && x.device.value < |w.data.devices|
    && req.appId == q.appId && req.licenseKey == ""
    && req.token.Some? && req.token.value in w.issued
    && req.token.value.licenseId == w.data.licenses[x.license.value].id
    && req.token.value.deviceId == w.data.devices[x.device.value].id
    && Sha256(req.fingerprint) == w.data.devices[x.device.value].fingerprint
  }

  /** What the findings and the gates both look at; they differ only in the name of the application. */
  predicate InOrder(d: Data, app: App, l: License, v: Device, now: Time) {
    var a := ActivationFor(d.activations, l.id, v.id);
    && app.status == AppActive && l.status == Active && now <= l.expiresAt && v.status == DeviceActive
    && a < |d.activations| && d.activations[a].status == ActivationActive
  }

  lemma FindingsTell(w: World, q: Query, x: Diagnosis, req: Verification.Request, now: Time)
    requires Valid(w) && Diagnose(w.data, q, now) == Some(x) && ClientOf(w, q, x, req)
    ensures var l, v := w.data.licenses[x.license.value], w.data.devices[x.device.value];
            var i := AppNamed(w.data.apps, q.appId);
            && i < |w.data.apps|
            && (AllFine(x.findings) <==> l.appId == q.appId && InOrder(w.data, w.data.apps[i], l, v, now))
  {
    hide Verification.GateLicense, LicenseById, DeviceById, ActivationFor, LatestActivation, FindDevice, EventsOk,
      LogsOk, DevicesOk, ActivationsOk, LicensesOk, PoliciesOk, ChallengesOk, KeysOk;
    var d := w.data;
    var l, v := d.licenses[x.license.value], d.devices[x.device.value];
    TokenIsBacked(w, req.token.value);
    FoundPair(w, q, x.license.value, req.token.value);
    FourFindings(x.findings);
  }

  lemma FourFindings(f: seq<Code>)
    requires |f| == 4
    ensures AllFine(f) <==> StatusOf(f[0]) == StatusOf(f[1]) == StatusOf(f[2]) == StatusOf(f[3]) == Fine
  {
    if StatusOf(f[0]) == StatusOf(f[1]) == StatusOf(f[2]) == StatusOf(f[3]) == Fine {
      forall c | c in f ensures StatusOf(c) == Fine {
        var k :| 0 <= k < |f| && f[k] == c;
      }
    }
    assert f[0] in f && f[1] in f && f[2] in f && f[3] in f;
  }

  lemma TokenIsBacked(w: World, c: Claims)
    requires Valid(w) && c in w.issued
    ensures var i := LicenseById(w.data.licenses, c.licenseId);
            && i < |w.data.licenses| && w.data.licenses[i].appId == c.appId
            && ActivationFor(w.data.activations, c.licenseId, c.deviceId) < |w.data.activations|
  {
    assert Backed(c, w.data.licenses, w.data.activations);
  }

  lemma FoundPair(w: World, q: Query, license: nat, c: Claims)
    requires license < |w.data.licenses| && w.data.licenses[license].id == c.licenseId
    requires var device := FindPair(w.data, q, Some(license)).0;
             device.Some? && w.data.devices[device.value].id == c.deviceId
    requires Valid(w) && ActivationFor(w.data.activations, c.licenseId, c.deviceId) < |w.data.activations|
    ensures FindPair(w.data, q, Some(license)).1 == Some(ActivationFor(w.data.activations, c.licenseId, c.deviceId))
  {
    var d := w.data;
    var latest := LatestActivation(d.activations, c.licenseId);
    if FindDevice(d, q, Some(license)).None? && latest.Some? {
      var k := ActivationFor(d.activations, c.licenseId, c.deviceId);
      assert d.activations[latest.value].licenseId == d.activations[k].licenseId;
    }
  }

  lemma LicenseGateTells(w: World, license: nat, req: Verification.Request, now: Time)
    requires Valid(w) && license < |w.data.licenses| && req.licenseKey == ""
    requires req.token.Some? && req.token.value in w.issued && req.token.value.licenseId == w.data.licenses[license].id
    requires AppNamed(w.data.apps, req.appId) < |w.data.apps|
    ensures var app, l := w.data.apps[AppNamed(w.data.apps, req.appId)], w.data.licenses[license];
            var g := Verification.GateLicense(w.data, w.issued, req, now);
            && (g.Pass? <==> app.status == AppActive && l.appId == app.appKey && l.status == Active && now <= l.expiresAt)
            && (g.Pass? ==> g.license == license && g.claims == req.token)
  {
    TokenIsBacked(w, req.token.value);
    SameLicense(w, license, req.token.value);
  }

  lemma GatesTell(w: World, q: Query, x: Diagnosis, req: Verification.Request, now: Time)
    requires Valid(w) && ClientOf(w, q, x, req)
    requires AppNamed(w.data.apps, q.appId) < |w.data.apps|
    ensures var app := w.data.apps[AppNamed(w.data.apps, q.appId)];
            var l, v := w.data.licenses[x.license.value], w.data.devices[x.device.value];
            VerifyLaws.PassesGates(w, req, now) <==> l.appId == app.appKey && InOrder(w.data, app, l, v, now)
  {
    hide Valid, ActiveDevices, LatestActivation, Verification.SeeDevice, Verification.GateLicense, FindLicense,
      FindPair;
    LicenseGateTells(w, x.license.value, req, now);
    TokenIsBacked(w, req.token.value);
    SameDevice(w, x.device.value, req);
    StepInvariants.SeeDeviceMeans(w, req, now);
  }

  lemma SameDevice(w: World, device: nat, req: Verification.Request)
    requires Valid(w) && device < |w.data.devices| && Sha256(req.fingerprint) == w.data.devices[device].fingerprint
    ensures DeviceByFingerprint(w.data.devices, Sha256(req.fingerprint)) == device
  {
  }

  lemma SameLicense(w: World, license: nat, c: Claims)
    requires Valid(w) && license < |w.data.licenses| && c.licenseId == w.data.licenses[license].id
    ensures LicenseById(w.data.licenses, c.licenseId) == license
  {
  }

  /**
   For an application named by its key the diagnostic never misleads: its four findings are all fine exactly when
   the client's genuine-token request would pass every gate between the challenge and the integrity check.
   */
  lemma DiagnosisAgrees(w: World, q: Query, x: Diagnosis, req: Verification.Request, now: Time)
    requires Valid(w) && Diagnose(w.data, q, now) == Some(x) && ClientOf(w, q, x, req)
    requires w.data.apps[AppNamed(w.data.apps, q.appId)].appKey == q.appId
    ensures AllFine(x.findings) <==> VerifyLaws.PassesGates(w, req, now)
  {
    hide Valid, Diagnose, ClientOf, InOrder, VerifyLaws.PassesGates, AllFine;
    FindingsTell(w, q, x, req, now);
    GatesTell(w, q, x, req, now);
  }

  /** A licence with a genuine token is filed under some application's key, which is no other application's ID. */
  lemma TokenNamesKey(w: World, q: Query, x: Diagnosis, req: Verification.Request)
    requires Valid(w) && ClientOf(w, q, x, req) && AppNamed(w.data.apps, q.appId) < |w.data.apps|
    requires w.data.licenses[x.license.value].appId == q.appId
    ensures w.data.apps[AppNamed(w.data.apps, q.appId)].appKey == q.appId
  {
    var d, c := w.data, req.token.value;
    TokenIsBacked(w, c);
    SameLicense(w, x.license.value, c);
    var a := d.activations[ActivationFor(d.activations, c.licenseId, c.deviceId)];
    assert a in d.activations && Refers(a, d.licenses, d.devices);
    KeyBeatsId(d.apps, q.appId);
  }

  lemma KeyBeatsId(apps: seq<App>, name: string)
    requires AppsOk(apps) && IsKey(apps, name)
    ensures var i := AppNamed(apps, name); i < |apps| && apps[i].appKey == name
  {
    var a :| a in apps && a.appKey == name;
    var j :| 0 <= j < |apps| && apps[j] == a;
  }

  /** However the application is named, what is reported fine passes. */
  lemma FineMeansPasses(w: World, q: Query, x: Diagnosis, req: Verification.Request, now: Time)
    requires Valid(w) && Diagnose(w.data, q, now) == Some(x) && ClientOf(w, q, x, req) && AllFine(x.findings)
    ensures VerifyLaws.PassesGates(w, req, now)
  {
    hide Valid, Diagnose, ClientOf, InOrder, VerifyLaws.PassesGates, AllFine;
    FindingsTell(w, q, x, req, now);
    TokenNamesKey(w, q, x, req);
    GatesTell(w, q, x, req, now);
  }

  /**
   Findings and gates disagree exactly when the application was named by its ID, the licence is held under its key,
   and nothing else stands against the client: then a mismatch is reported for a client that passes.
   */
  lemma DisagreementIff(w: World, q: Query, x: Diagnosis, req: Verification.Request, now: Time)
    requires Valid(w) && Diagnose(w.data, q, now) == Some(x) && ClientOf(w, q, x, req)
    ensures AppNamed(w.data.apps, q.appId) < |w.data.apps|
    ensures var app := w.data.apps[AppNamed(w.data.apps, q.appId)];
            var l, v := w.data.licenses[x.license.value], w.data.devices[x.device.value];
            (AllFine(x.findings) <==> !VerifyLaws.PassesGates(w, req, now))
            <==> app.appKey != q.appId && l.appId == app.appKey && InOrder(w.data, app, l, v, now)
    ensures !AllFine(x.findings) && VerifyLaws.PassesGates(w, req, now) ==>
              x.findings == [AppIsActive, LicenseAppMismatch, DeviceIsActive, ActivationIsActive]
  {
    hide Valid, VerifyLaws.PassesGates, AllFine, InOrder, LatestActivation, FindDevice, FindLicense, Diagnose;
    FindingsTell(w, q, x, req, now);
    GatesTell(w, q, x, req, now);
    if w.data.licenses[x.license.value].appId == q.appId {
      TokenNamesKey(w, q, x, req);
    } else if VerifyLaws.PassesGates(w, req, now) {
      MismatchFindings(w, q, x, req, now);
    }
  }

  lemma MismatchFindings(w: World, q: Query, x: Diagnosis, req: Verification.Request, now: Time)
    requires Valid(w) && Diagnose(w.data, q, now) == Some(x) && ClientOf(w, q, x, req)
    requires AppNamed(w.data.apps, q.appId) < |w.data.apps| && w.data.licenses[x.license.value].appId != q.appId
    requires InOrder(w.data, w.data.apps[AppNamed(w.data.apps, q.appId)], w.data.licenses[x.license.value],
                     w.data.devices[x.device.value], now)
    ensures x.findings == [AppIsActive, LicenseAppMismatch, DeviceIsActive, ActivationIsActive]
  {
    hide LatestActivation, FindDevice, EventsOk, LogsOk, PoliciesOk, ChallengesOk, KeysOk;
    TokenIsBacked(w, req.token.value);
    FoundPair(w, q, x.license.value, req.token.value);
  }

  /** In every run, at every state: what is reported fine passes, and only a mismatch is ever reported wrongly. */
  lemma DiagnosisInRuns(r: Run, i: nat, q: Query, x: Diagnosis, req: Verification.Request, now: Time)
    requires IsRun(r) && Valid(r.states[0]) && i < |r.states|
    requires Diagnose(r.states[i].data, q, now) == Some(x) && ClientOf(r.states[i], q, x, req)
    ensures AllFine(x.findings) ==> VerifyLaws.PassesGates(r.states[i], req, now)
    ensures VerifyLaws.PassesGates(r.states[i], req, now) ==>
              AllFine(x.findings) || x.findings == [AppIsActive, LicenseAppMismatch, DeviceIsActive, ActivationIsActive]
  {
    hide Step, Valid, Diagnose, ClientOf, AllFine, VerifyLaws.PassesGates, InOrder;
    StepInvariants.RunKeeps(r, i, i);
    if AllFine(x.findings) {
      FineMeansPasses(r.states[i], q, x, req, now);
    }
    DisagreementIff(r.states[i], q, x, req, now);
  }

  /** The activation reported is the found device's own exactly when that pair has one; otherwise another device's. */
  lemma ActivationReported(d: Data, q: Query, x: Diagnosis, now: Time)
    requires Diagnose(d, q, now) == Some(x) && x.license.Some? && x.device.Some? && x.activation.Some?
    ensures var l, v, a := d.licenses[x.license.value], d.devices[x.device.value], d.activations[x.activation.value];
            && a.licenseId == l.id
            && (a.deviceId == v.id <==> exists b | b in d.activations :: b.licenseId == l.id && b.deviceId == v.id)
  {
    var l, v, a := d.licenses[x.license.value], d.devices[x.device.value], d.activations[x.activation.value];
    var k := ActivationFor(d.activations, l.id, v.id);
    assert a in d.activations;
    if b :| b in d.activations && b.licenseId == l.id && b.deviceId == v.id {
      assert k < |d.activations|;
    }
  }
}
