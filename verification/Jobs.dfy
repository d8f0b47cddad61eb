/** The job aggregate, its audit events, and the three domain operations that move it. */
module Jobs {
  import opened Bytes
  import opened Wrappers
  import opened StateMachine

  /** A 32-byte hash; `reconcileForMarkedReceipt` compares them as lower-cased hex text. */
  type Digest = seq<Byte>
  type JobId = string
  /** A hex address as written; `matchTransferLog` and the encoders compare addresses lower-cased. */
  type HexAddress = string
  type TxHash = string
  type Timestamp = nat

  datatype Coverage = Full | Partial | Unsupported

  datatype GovernorFamily = GovernorBravo | OpenZeppelinGovernor

  datatype BindingParam = BindingParam(key: string, value: string)

  datatype Binding = Binding(
    actionIndex: nat, adapterId: string, adapterVersion: string, required: bool, params: seq<BindingParam>)

  /** What the human arms; nothing mutable belongs here. */
  datatype Commitment = Commitment(
    version: nat,
    chainId: nat,
    governor: HexAddress,
    governorFamily: GovernorFamily,
    proposalId: string,
    frozenAuthorization: Digest,
    selectedActionIndexes: seq<nat>,
    bindings: seq<Binding>,
    mode: Mode,
    executionSurfaceId: string,
    executionPolicyVersion: string)

  datatype ReceiptStatus = Verified | Unverified

  datatype Receipt = Receipt(
    version: nat,
    commitmentHash: Digest,
    frozenAuthorization: Digest,
    finalAuthorization: Digest,
    chainId: nat,
    governor: HexAddress,
    governorFamily: GovernorFamily,
    proposalId: string,
    actionIndex: nat,
    executionTxHash: TxHash,
    executionBlock: nat,
    finalityBlock: nat,
    governorFinalState: nat,
    coverage: Coverage,
    requiredAssertionsVerified: bool,
    status: ReceiptStatus,
    observedAt: Timestamp)

  /** Observations about an execution in progress. */
  datatype ExecutionState = ExecutionState(
    preStateBlock: nat,
    balanceBefore: int,
    token: HexAddress,
    recipient: HexAddress,
    authorizedAmount: nat,
    requestHash: Option<Digest>,
    transactionHash: Option<TxHash>,
    inclusionBlock: Option<nat>,
    finalityBlock: Option<nat>,
    governorFinalState: Option<nat>)

  datatype Job = Job(
    jobId: JobId,
    status: Status,
    commitment: Commitment,
    commitmentHash: Digest,
    createdAt: Timestamp,
    updatedAt: Timestamp,
    receipt: Option<Receipt>,
    execution: Option<ExecutionState>)

  datatype EventKind = ArmedEvent | DisarmedEvent | ApprovedEvent

  datatype Event = Event(
    kind: EventKind, actor: string, reason: Option<string>, timestamp: Timestamp,
    previousState: Status, nextState: Status, commitmentHash: Digest)

  datatype JobError =
    | CommitmentHashMismatch
    | AuthorizationChanged
    | CoverageIncomplete
    | CoverageUnsupported
    | IllegalMove(from: Status, to: Status)
    | IllegalDisarm(status: Status)
    | IllegalApproval(status: Status)
    | ApprovalHashMismatch

  /** A moved job together with the event that records the move. */
  datatype Move = Move(job: Job, event: Event)

  function CreateReviewReadyJob(jobId: JobId, commitment: Commitment, hash: Digest, now: Timestamp): Job {
    Job(jobId, ReviewReady, commitment, hash, now, now, None, None)
  }

  /** The move all three operations end in. */
  function MoveTo(job: Job, to: Status, kind: EventKind, actor: string, reason: Option<string>, now: Timestamp)
    : Result<Move, JobError>
  {
    match Transition(job.status, to, None)
    case Err(e) => Err(IllegalMove(e.from, e.to))
    case Ok(next) =>
      Ok(Move(job.(status := next, updatedAt := now),
              Event(kind, actor, reason, now, job.status, next, job.commitmentHash)))
  }

  /** `reviewedHash` is the hash of the commitment the human reviewed, recomputed by the caller. */
  function ArmJob(job: Job, reviewed: Commitment, reviewedHash: Digest, currentAuthorization: Digest,
                  coverage: Coverage, actor: string, now: Timestamp): Result<Move, JobError>
  {
    if reviewedHash != job.commitmentHash then Err(CommitmentHashMismatch)
    else if currentAuthorization != reviewed.frozenAuthorization then Err(AuthorizationChanged)
    else if !coverage.Full? then Err(if coverage.Unsupported? then CoverageUnsupported else CoverageIncomplete)
    else MoveTo(job, Armed, ArmedEvent, actor, None, now)
  }

  predicate Disarmable(st: Status) {
    st.Armed? || st.WaitingEligibility? || st.Eligible? || st.AwaitingApproval?
  }

  function DisarmJob(job: Job, actor: string, reason: Option<string>, now: Timestamp): Result<Move, JobError> {
    if !Disarmable(job.status) then Err(IllegalDisarm(job.status))
    else MoveTo(job, DisarmedByUser, DisarmedEvent, actor, reason, now)
  }

  function ApproveJob(job: Job, approvedHash: Digest, actor: string, now: Timestamp): Result<Move, JobError> {
    if !job.status.AwaitingApproval? then Err(IllegalApproval(job.status))
    else if approvedHash != job.commitmentHash then Err(ApprovalHashMismatch)
    else MoveTo(job, Executing, ApprovedEvent, actor, None, now)
  }

  /** A move from one status to another, recorded by one event of this kind, with everything else about the job kept. */
  predicate Records(job: Job, m: Move, to: Status, kind: EventKind, actor: string, reason: Option<string>,
                    now: Timestamp) {
    && m.job == job.(status := to, updatedAt := now)
    && m.event == Event(kind, actor, reason, now, job.status, to, job.commitmentHash)
  }

  /** Arming succeeds exactly when a reviewable job's own commitment was reviewed, its bundle unchanged and covered. */
  lemma ArmExactlyWhen(job: Job, reviewed: Commitment, reviewedHash: Digest, current: Digest, coverage: Coverage,
                       actor: string, now: Timestamp)
    ensures var r := ArmJob(job, reviewed, reviewedHash, current, coverage, actor, now);
            && (r.Ok? <==>
                  reviewedHash == job.commitmentHash && current == reviewed.frozenAuthorization &&
                  coverage.Full? && job.status.ReviewReady?)
            && (r.Ok? ==> Records(job, r.value, Armed, ArmedEvent, actor, None, now))
            && (r == Err(CommitmentHashMismatch) <==> reviewedHash != job.commitmentHash)
            && (r == Err(AuthorizationChanged) <==>
                  reviewedHash == job.commitmentHash && current != reviewed.frozenAuthorization)
            && (r == Err(CoverageUnsupported) <==>
                  reviewedHash == job.commitmentHash && current == reviewed.frozenAuthorization &&
                  coverage.Unsupported?)
            && (r == Err(CoverageIncomplete) <==>
                  reviewedHash == job.commitmentHash && current == reviewed.frozenAuthorization && coverage.Partial?)
            && (r == Err(IllegalMove(job.status, Armed)) <==>
                  reviewedHash == job.commitmentHash && current == reviewed.frozenAuthorization &&
                  coverage.Full? && !job.status.ReviewReady?)
  {
  }

  /** Every status the disarm operation accepts has the table's edge, so it never fails for want of one. */
  lemma DisarmExactlyWhen(job: Job, actor: string, reason: Option<string>, now: Timestamp)
    ensures var r := DisarmJob(job, actor, reason, now);
            && (r.Ok? <==>
                  job.status.Armed? || job.status.WaitingEligibility? || job.status.Eligible? ||
                  job.status.AwaitingApproval?)
            && (r.Ok? ==> Records(job, r.value, DisarmedByUser, DisarmedEvent, actor, reason, now))
            && (r.Err? ==> r.error == IllegalDisarm(job.status))
  {
  }

  lemma ApproveExactlyWhen(job: Job, approvedHash: Digest, actor: string, now: Timestamp)
    ensures var r := ApproveJob(job, approvedHash, actor, now);
            && (r.Ok? <==> job.status.AwaitingApproval? && approvedHash == job.commitmentHash)
            && (r.Ok? ==> Records(job, r.value, Executing, ApprovedEvent, actor, None, now))
            && (r == Err(IllegalApproval(job.status)) <==> !job.status.AwaitingApproval?)
            && (r == Err(ApprovalHashMismatch) <==>
                  job.status.AwaitingApproval? && approvedHash != job.commitmentHash)
  {
  }
}
