/** Vocabulary shared by the State Service, the model gateway and their proofs. */
module Base {

  datatype Option<+T> = None | Some(value: T)

  datatype Result<+T, +E> = Ok(value: T) | Err(error: E) {
    predicate IsFailure() { Err? }

    function PropagateFailure<U>(): Result<U, E>
      requires Err?
    {
      Err(error)
    }

    function Extract(): T
      requires Ok?
    {
      value
    }
  }

  /** Identifiers. A version 4 UUID is a number drawn by the caller. A name-based UUID
      (section 5.5 of RFC 9562) is a free constructor over its name: two of them are equal
      exactly when namespace and name are equal. */
  datatype Uuid =
    | V4(number: nat)
    | ClaimOf(job: Uuid, outboxEvent: Uuid)
    | EvidenceReceiptOf(program: Uuid, job: Uuid, claim: Uuid, objectRef: ObjectRef, rawSha256: string,
                        byteSize: int, format: EvidenceFormat, policy: string, checker: string)
    | EvidenceItemOf(receipt: Uuid)
    | UsageLedgerOf(receipt: Uuid)
    | UsageReceiptOf(program: Uuid, run: Uuid, modelCall: Uuid, reservation: Uuid, requestSha256: string)
    | ApplyRefusalOf(program: Uuid, proposal: Uuid, expected: int, key: string, decision: Option<Uuid>)

  /** The server-derived location of a verified evidence object. */
  datatype ObjectRef = ObjectRef(program: Uuid, rawSha256: string)

  /** The one registered format and media type, or any other pair. */
  datatype EvidenceFormat = PlainText | OtherFormat(name: string, mediaType: string)

  datatype PrincipalType = User | Agent | Service | System

  datatype Channel = Web | Mcp | Internal

  datatype Principal = Principal(id: string, kind: PrincipalType, scopes: seq<string>, programs: seq<Uuid>, authContext: string)

  datatype ReasonCode =
    | Okay
    | InvalidEnvelope
    | SchemaInvalid
    | CommandNotRegistered
    | PrincipalNotAllowed
    | ProgramScopeDenied
    | NotFound
    | VersionConflict
    | IdempotencyKeyReused
    | StateTransitionInvalid
    | ApprovalRequired
    | ApprovalExpired
    | DecisionInvalid
    | DecisionReplayed
    | Conflict
    | TransactionAborted

  /** Structured part of a rejection. */
  datatype Detail =
    | NoDetail
    | ProgramVersions(expected: int, actual: int)
    | JobVersions(expectedJob: int, actualJob: int)
    | ExistingReservation(reservation: Uuid)
    | ReservationNotFound
    | ReservationStateInvalid
    | RuntimeConfigNotFound
    | RuntimeConfigInvalid
    | ProviderUsageInvalid

  /** Which check raised: one constructor per message text. */
  datatype Cause =
    | UsageIssuerMismatch | ChangeNotRegistered | ConstraintViolated | CallAlreadyBound | DecisionNotBound
    | ApprovalNotValid | DecisionNotFound | LowRiskCarriesDecision | ProposalBaseMismatch | AlreadyApplied
    | KeyBoundElsewhere | UsageProgramMismatch | SettlementSnapshotNotFound | SnapshotNotFound
    | ActivePlanNotFound | ApprovalNotFound | BasePlanNotFound | NoSuchReservation | NoSuchJob | NoSuchProgram
    | ProposalNotFound | RestoreTargetNotFound | RoleNotAllowed | ReceiptIssuerMismatch | MembershipMismatch
    | EntryNotAllowed | RejectionIssuerMismatch | ReceiptOutsideJob | NotAMember | RejectionOutsideJob
    | OutsideScope | ApprovalHasExpired | DecisionHasExpired | HighRiskNeedsDecision | LowRiskPolicyRevoked
    | UsageNotBound | RunMismatch | TasksNotUnique | ReceiptIdNotDerived | ReceiptCheckerInvalid
    | ReceiptClaimInvalid | ReceiptNotExportSafe | ReceiptPolicyInvalid | ApprovalNotYetExpired
    | ApprovalNotPending | NotReserved | ClaimNotBound | ProposalNotDecidable | ProposalMissing
    | RejectionCheckerInvalid | RejectionClaimInvalid | RejectionCodeNotRegistered | RejectionPolicyInvalid
    | OrderIsNotARearrangement | UnexpectedJobStatus | ObjectRefNotDerived | RequestVersionMismatch
    | ActivePlanChanged | BaseNotActive | StaleJobVersion | StaleStateVersion
    | NoSuchObject | MethodNotAllowed | ApplyDisabled | InvariantBroken | KeyInProgress | ReceiptFormatInvalid

  datatype Rejection = Rejection(code: ReasonCode, cause: Cause, detail: Detail := NoDetail)

  // ---------- text and sets ----------

  predicate IsHex(c: char) { '0' <= c <= '9' || 'a' <= c <= 'f' }

  predicate IsSha256(s: string) {
    |s| == 64 && forall i :: 0 <= i < 64 ==> IsHex(s[i])
  }

  lemma SubsetSize<T>(a: set<T>, b: set<T>)
    requires a <= b
    ensures |a| <= |b|
  {
    assert |b - a| == |b| - |a|;
  }

  lemma SameSizeSubset<T>(a: set<T>, b: set<T>)
    requires a <= b && |b| <= |a|
    ensures a == b
  {
    assert |b - a| == |b| - |a|;
  }
}
