/** The server's stored records, as values. */
module Types {

  /** Nanoseconds since 1970. */
  type Time = int

  /** What newID draws: never the same value twice. */
  type Id = nat

  /** Go's zero time, the first instant of the year 1: it marks a time never set, and is no reading of a clock. */
  const ZERO_TIME: Time := -62_135_596_800_000_000_000
  const SECOND: Time := 1_000_000_000
  const MINUTE: Time := 60_000_000_000
  const DAY: Time := 86_400_000_000_000

  /** Unix seconds of an instant, rounded down. */
  function Unix(t: Time): int {
    t / SECOND
  }

  datatype Option<+T> = None | Some(value: T)

  /** A hash stands for the text it was made from: distinct texts never collide. */
  datatype Hash = Sha256(text: string)

  datatype AppStatus = AppActive | AppDisabled
  datatype App = App(id: string, appKey: string, status: AppStatus)

  datatype LicenseStatus = Active | Revoked | Suspended | Expired
  datatype License = License(
    id: Id, keyHash: Hash, appId: string, maxDevices: int, entitlements: seq<string>,
    expiresAt: Time, status: LicenseStatus, updatedAt: Time)

  datatype DeviceStatus = DeviceActive | DeviceBlocked
  datatype Device = Device(
    id: Id, fingerprint: Hash, installHash: Hash, platform: string, osVersion: string, machineName: Hash,
    riskScore: int, status: DeviceStatus, firstSeenAt: Time, lastSeenAt: Time)

  datatype ActivationStatus = ActivationActive | Deactivated | ActivationBlocked
  datatype Activation = Activation(
    id: Id, licenseId: Id, deviceId: Id, appId: string, status: ActivationStatus,
    activatedAt: Time, lastVerifiedAt: Time, deactivatedAt: Option<Time>)

  datatype Release = Release(
    id: Id, appId: string, platform: string, version: string, buildNumber: int, status: string,
    signerThumbprint: string, mainBinaryHash: string, resourceManifestHash: string, businessManifest: string,
    dbSchemaHash: string, dbTablesHash: string, assetsManifest: string, workflowManifest: string,
    downloadUrl: string, packageHash: string, mandatory: bool, minSupportedVersion: string,
    rolloutPercent: int, createdAt: Time)

  datatype SdkKeyStatus = KeyActive | KeyRotated
  datatype SdkKey = SdkKey(id: Id, appId: string, status: SdkKeyStatus, createdAt: Time, rotatedAt: Option<Time>)

  datatype Policy = Policy(
    appId: string, capability: string, requiredEntitlement: string, mode: string, message: string,
    createdAt: Time, updatedAt: Time)

  datatype Severity = Low | Medium | High

  datatype EventType =
    | UnknownAppVersion | AppVersionBlocked | AppVersionDeprecated | BinaryHashMismatch | SignatureMismatch
    | BusinessManifestMismatch | DbSchemaMismatch | DbTablesMismatch | AssetManifestMismatch
    | WorkflowManifestMismatch | ManifestSignatureInvalid | BusinessIntegrityFailed | DbEncryptionFailed
    | DebuggerDetected | SuspiciousModuleLoaded | VmIndicator
    | TokenAppMismatch | DeviceIsBlocked | TokenDeviceMismatch | TokenActivationInactive | DeviceLimitExceeded
    | CapabilityDenied

  /** A denied capability logs its effective mode as the action. */
  datatype EventAction = AllowAction | DenyAction | ReviewAction | ChallengeAction | ModeAction(mode: string)

  datatype RiskEvent = RiskEvent(
    id: Id, appId: string, deviceId: Option<Id>, licenseId: Id, eventType: EventType,
    severity: Severity, action: EventAction, createdAt: Time, resolvedAt: Option<Time>)

  datatype AuditTarget =
    | OnApp(appId: string) | OnLicense(id: Id) | OnDevice(id: Id) | OnRiskEvent(id: Id) | OnRelease(id: Id) | OnSettings
  datatype AuditAction =
    | LicenseCreate | LicenseRevoke | LicenseSuspend | LicenseResume | DeviceBlock | DeviceUnblock | DeviceUnbind
    | RiskResolve | SdkKeyRotate | AppCreate | PolicyUpsert | PolicySeed | SettingsUpdate | ReleaseCreate | ReleaseUpdate
  datatype AuditLog = AuditLog(id: Id, adminId: string, action: AuditAction, target: AuditTarget, createdAt: Time)

  datatype Integrity = Integrity(
    appVersion: string, mainBinaryHash: string, signerThumbprint: string, businessManifest: string,
    manifestSignatureValid: Option<bool>, dbSchemaHash: string, dbTablesHash: string, assetsManifest: string,
    workflowManifest: string, businessStatus: string, businessErrors: seq<string>, dbStatus: string,
    dbErrors: seq<string>, debuggerDetected: bool, suspiciousModules: seq<string>, vmIndicators: seq<string>)

  datatype Report = Report(
    id: Id, appId: string, deviceId: Id, releaseId: Option<Id>, platform: string, integrity: Integrity, createdAt: Time)

  datatype Settings = Settings(
    tokenTtlMinutes: int, mediumRiskTtlMinutes: int, offlineGraceDays: int, maxDevices: int,
    licenseDays: int, auditDays: int, mfaRequired: bool, confirmSensitive: bool, updatedAt: Time)

  /** What a licence token says; times are Unix seconds. */
  datatype Claims = Claims(
    appId: string, licenseId: Id, deviceId: Id, entitlements: seq<string>,
    issuedAt: int, expiresAt: int, graceUntil: int)

  datatype DecisionReason = Unstated | UnknownCapability | MissingEntitlement
  datatype Decision = Decision(
    capability: string, requiredEntitlement: string, configuredMode: string, effectiveMode: string,
    allowed: bool, reason: DecisionReason, message: string)

  datatype Bundle = Bundle(
    appId: string, licenseId: Id, deviceId: Id, entitlements: seq<string>, decisions: seq<Decision>,
    issuedAt: int, expiresAt: int)

  datatype Challenge = Challenge(nonce: string, appId: string, installId: string, expiresAt: Time, createdAt: Time)

  datatype Data = Data(
    apps: seq<App>, releases: seq<Release>, sdkKeys: seq<SdkKey>, licenses: seq<License>, policies: seq<Policy>,
    devices: seq<Device>, activations: seq<Activation>, reports: seq<Report>, riskEvents: seq<RiskEvent>,
    auditLogs: seq<AuditLog>, settings: Settings)
}
