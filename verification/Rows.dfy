// The rows of setup_sessions, mobile_connections and the pool tables, as values.
module Rows {
  datatype Option<+T> = None | Some(value: T)

  // Nanoseconds of the database clock.
  type Time = int
  const SECOND: Time := 1_000_000_000
  const QR_LIFETIME: Time := 300 * SECOND
  const CONFIRMATION_LIFETIME: Time := 300 * SECOND
  const COOLDOWN: Time := 5 * SECOND

  type SessionId = nat
  type ConnId = nat
  type UserId = nat
  type BatchId = nat
  type AdditionId = nat
  type AdminId = nat
  type Did = string

  datatype Error =
    | NotFound
    | Conflict
    | Expired
    | InvalidDid
    | Cooldown
    | AlreadyClaimed
    | ReplayInactive
    | Invalid
    | Empty
    | CapacityReached(available: nat)
    | PublicDisabled
    | Exhausted

  datatype Result<+T> = Ok(value: T) | Fail(error: Error)

  datatype SessionStatus =
    | PoolCreating | PoolPublishing | PoolPrepared | PoolWaiting
    | VtaSetupRunning | VtaSetupComplete | AwaitingAdminDid
    | Provisioning | StepImportAdminDid | DeployVta
    | StepVtcSetupKey | StepVtcAclGrant | StepVtcSetup | DeployVtc
    | Running | Failed | Deleting | OtherStatus(name: string)

  // adminDid is None where the column holds the empty string.
  datatype Session = Session(
    userId: UserId, fullStack: bool, status: SessionStatus,
    vtaDid: Did, adminDid: Option<Did>, vtaName: string, vtaImage: string)

  datatype Operation = NoOperation | ProvisionVta | GrantAcl

  datatype ConnStatus =
    | Open | Claimed | Confirmed | Provisioning | Released
    | Rejected | Lapsed | Cancelled | Expired | Failed
    | Pending | Accepted

  datatype Connection = Connection(
    sessionId: SessionId, vtaDid: Did, operation: Operation, adminDid: Option<Did>,
    status: ConnStatus, claimantDigest: Option<Did>, createdAt: Time, expiresAt: Time,
    confirmBy: Option<Time>, claimedAt: Option<Time>, confirmedAt: Option<Time>,
    releasedAt: Option<Time>, accessDigest: Option<string>)

  datatype Purpose = AdminStation | PublicSignup

  datatype Batch = Batch(
    createdBy: AdminId, purpose: Purpose, requested: nat, publicSince: Option<Time>,
    key: string, digest: string, vtaImage: string, cleanupAt: Option<Time>)

  datatype Addition = Addition(batchId: BatchId, createdBy: AdminId, requested: nat, key: string, digest: string)

  datatype User = User(uniqueId: string, hasEmail: bool, fullstackAccess: bool)
}
