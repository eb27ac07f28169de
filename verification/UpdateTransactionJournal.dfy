/** The records of an A/B slot update: the published slot selection and the transaction journal. */
module UpdateTransactionJournal {
  import opened Common
  import AdmissionProtocol

  // ---- the parts of a record ----

  datatype ProcessOwner = ProcessOwner(pid: int, creationTime: string, executable: string)

  datatype DataGeneration = DataGeneration(id: string, manifestDigest: string)

  datatype Slot = A | B

  datatype Tunnel = Tunnel(enabled: bool, wasConnected: bool, profileDigest: Option<string>)

  /** What the journal carries along without ever deciding on it. */
  datatype Release = Release(requestId: string, releaseId: string, policyRevision: int, envelopeDigest: string,
                             version: string, maintenanceEpoch: string, operationNonce: string, tunnel: Tunnel)

  datatype Phase =
    | CandidateReady | QuiesceIntent | Quiesced | TunnelStopIntent | TunnelStopped
    | CandidateSelectionIntent | CandidateSelected | CandidateLaunchIntent | TrialStarted
    | HealthVerified | CommitIntent | Committed
    | RollbackIntent | PreviousSelectionIntent | PreviousSelected | PreviousLaunchIntent | PreviousStarted
    | RollbackVerified | RollbackUnverified

  /**
   * The digest field of a record. SHA-256 is taken to be injective, so the digest of a record is
   * represented by the record; `Other` is any further text but "none".
   */
  datatype Digest = NoDigest | OfSelection(selection: Selection) | OfTransaction(transaction: Transaction) | Other(text: string)

  datatype Selection = Selection(
    installationId: string, generation: nat, revision: nat, previous: Digest, owner: ProcessOwner,
    transactionId: string, slot: Slot, slotDigest: string, data: DataGeneration)

  datatype Transaction = Transaction(
    installationId: string, generation: nat, revision: nat, previous: Digest, owner: ProcessOwner,
    transactionId: string, release: Release, previousSelection: Digest,
    previousSlot: Slot, previousSlotDigest: string, previousData: DataGeneration,
    candidateSlot: Slot, candidateSlotDigest: string, candidateData: DataGeneration, phase: Phase)

  datatype Refusal =
    | TransactionInvalid | SelectionInvalid | IdentityMismatch
    | HealthEvidenceRequired | CommitEvidenceRequired | RollbackEvidenceRequired
    | PhaseTerminal | PhaseTransitionInvalid
    | SelectionPhaseInvalid | SelectionConflict
    | TransactionPublicationPending | SlotPublicationPending | PublicationPending
    | EnrollmentConflict | CasConflict | SuccessorInvalid
    | TransactionMissing | SelectionMissing | SelectionPhaseConflict
    | TransactionPublicationUnverified | SlotPublicationUnverified
    | Interrupted

  // ---- well-formed records ----

  /** A GUID that prints as it reads: lower-case digits. */
  predicate CanonicalGuid(t: string) {
    AdmissionProtocol.Guid(t) && forall i :: 0 <= i < |t| ==> !('A' <= t[i] <= 'F')
  }

  const EMPTY_GUID := "00000000-0000-0000-0000-000000000000"

  predicate IsDigest(d: Digest) { d.OfSelection? || d.OfTransaction? || (d.Other? && DigestText(d.text)) }

  predicate ValidPrevious(d: Digest) { d.NoDigest? || IsDigest(d) }

  predicate OwnerValid(o: ProcessOwner) {
    && o.pid > 0
    && AdmissionProtocol.ParseDecimal(o.creationTime).Some? && AdmissionProtocol.ParseDecimal(o.creationTime) != Some(0)
    && 1 <= |o.executable| <= 32768 && '\0' !in o.executable && FullyQualified(o.executable)
  }

  predicate DataValid(g: DataGeneration) { CanonicalGuid(g.id) && g.id != EMPTY_GUID && DigestText(g.manifestDigest) }

  predicate TunnelValid(t: Tunnel) {
    && (t.wasConnected ==> t.enabled) && (t.enabled ==> t.profileDigest.Some?)
    && (t.profileDigest.Some? ==> DigestText(t.profileDigest.value))
  }

  function SplitDots(t: string): (parts: seq<string>)
    ensures |parts| > 0
  {
    if t == "" then [""]
    else if t[0] == '.' then [""] + SplitDots(t[1..])
    else var rest := SplitDots(t[1..]); [[t[0]] + rest[0]] + rest[1..]
  }

  /** Three canonical numbers that each fit 31 bits, with dots between them. */
  predicate StableVersion(t: string) {
    var parts := SplitDots(t);
    && |parts| == 3
    && forall i :: 0 <= i < 3 ==>
         AdmissionProtocol.ParseDecimal(parts[i]).Some? && AdmissionProtocol.ParseDecimal(parts[i]).value <= 0x7FFF_FFFF
  }

  predicate ReleaseValid(r: Release) {
    && AdmissionProtocol.Identifier(r.requestId) && AdmissionProtocol.Identifier(r.releaseId) && r.policyRevision >= 1
    && DigestText(r.envelopeDigest) && StableVersion(r.version)
    && CanonicalGuid(r.maintenanceEpoch) && CanonicalGuid(r.operationNonce) && TunnelValid(r.tunnel)
  }

  predicate SelectionValid(s: Selection) {
    && DigestText(s.installationId) && 1 <= s.generation <= ULONG_MAX && 1 <= s.revision <= ULONG_MAX
    && ValidPrevious(s.previous) && CanonicalGuid(s.transactionId) && DigestText(s.slotDigest)
    && DataValid(s.data) && OwnerValid(s.owner)
  }

  function EvidenceRequired(p: Phase): Option<Refusal> {
    match p
    case HealthVerified => Some(HealthEvidenceRequired)
    case Committed => Some(CommitEvidenceRequired)
    case RollbackVerified => Some(RollbackEvidenceRequired)
    case _ => None
  }

  predicate FieldsValid(t: Transaction) {
    && DigestText(t.installationId) && 1 <= t.generation <= ULONG_MAX && 1 <= t.revision <= ULONG_MAX
    && ValidPrevious(t.previous) && CanonicalGuid(t.transactionId) && ReleaseValid(t.release)
    && IsDigest(t.previousSelection) && t.candidateSlot != t.previousSlot
    && DigestText(t.previousSlotDigest) && DigestText(t.candidateSlotDigest) && t.candidateSlotDigest != t.previousSlotDigest
    && DataValid(t.previousData) && DataValid(t.candidateData) && t.candidateData.id != t.previousData.id
    && OwnerValid(t.owner)
  }

  function Validate(t: Transaction): Option<Refusal> {
    if !FieldsValid(t) then Some(TransactionInvalid) else EvidenceRequired(t.phase)
  }

  // ---- the journal ----

  predicate SafeToStart(t: Transaction) { t.phase.Committed? || t.phase.RollbackVerified? }

  /** A new transaction over the active selection. */
  function Create(s: Selection, previousJournal: Digest, owner: ProcessOwner, release: Release,
                  candidateSlotDigest: string, candidateData: DataGeneration, transactionId: string): Result<Transaction, Refusal> {
    if s.generation + 1 > ULONG_MAX then Refused(TransactionInvalid) else
    var t := Transaction(s.installationId, s.generation + 1, 1, previousJournal, owner, transactionId, release,
                         OfSelection(s), s.slot, s.slotDigest, s.data,
                         if s.slot.A? then B else A, candidateSlotDigest, candidateData, CandidateReady);
    if Validate(t).Some? then Refused(Validate(t).value)
    else if candidateSlotDigest == s.slotDigest then Refused(TransactionInvalid)
    else Ok(t)
  }

  predicate RollingBack(p: Phase) {
    p.RollbackIntent? || p.PreviousSelectionIntent? || p.PreviousSelected? || p.PreviousLaunchIntent? || p.PreviousStarted?
  }

  predicate CanAdvance(current: Phase, next: Phase) {
    if current.Committed? || current.RollbackVerified? || current.RollbackUnverified? then false
    else if next.RollbackIntent? then !RollingBack(current)
    else if next.RollbackUnverified? then RollingBack(current)
    else
      match current
      case CandidateReady => next.QuiesceIntent?
      case QuiesceIntent => next.Quiesced?
      case Quiesced => next.TunnelStopIntent?
      case TunnelStopIntent => next.TunnelStopped?
      case TunnelStopped => next.CandidateSelectionIntent?
      case CandidateSelectionIntent => next.CandidateSelected?
      case CandidateSelected => next.CandidateLaunchIntent?
      case CandidateLaunchIntent => next.TrialStarted?
      case HealthVerified => next.CommitIntent?
      case RollbackIntent => next.PreviousSelectionIntent?
      case PreviousSelectionIntent => next.PreviousSelected?
      case PreviousSelected => next.PreviousLaunchIntent?
      case PreviousLaunchIntent => next.PreviousStarted?
      case _ => false
  }

  function Advance(t: Transaction, next: Phase, previous: Digest, owner: ProcessOwner): Result<Transaction, Refusal> {
    if !ValidPrevious(previous) || !OwnerValid(owner) then Refused(TransactionInvalid)
    else if EvidenceRequired(next).Some? then Refused(EvidenceRequired(next).value)
    else if !CanAdvance(t.phase, next) then Refused(if SafeToStart(t) then PhaseTerminal else PhaseTransitionInvalid)
    else if t.revision + 1 > ULONG_MAX then Refused(TransactionInvalid)
    else
      var t' := t.(revision := t.revision + 1, previous := previous, owner := owner, phase := next);
      if Validate(t').Some? then Refused(Validate(t').value) else Ok(t')
  }

  // ---- the selection ----

  function Checked(s: Selection): Result<Selection, Refusal> {
    if SelectionValid(s) then Ok(s) else Refused(SelectionInvalid)
  }

  function SelectCandidate(s: Selection, t: Transaction, expected: Digest, owner: ProcessOwner): Result<Selection, Refusal> {
    if !t.phase.CandidateSelectionIntent? then Refused(SelectionPhaseInvalid)
    else if expected != OfSelection(s) || t.installationId != s.installationId then Refused(SelectionConflict)
    else if s.generation == t.generation && s.transactionId == t.transactionId && s.revision == 1
            && s.previous == t.previousSelection && s.slot == t.candidateSlot && s.slotDigest == t.candidateSlotDigest
            && s.data == t.candidateData then Ok(s)
    else if t.previousSelection != OfSelection(s) || s.generation == ULONG_MAX || t.generation != s.generation + 1
            || t.previousSlot != s.slot || t.previousSlotDigest != s.slotDigest || t.previousData != s.data
    then Refused(SelectionConflict)
    else Checked(Selection(s.installationId, t.generation, 1, OfSelection(s), owner, t.transactionId,
                           t.candidateSlot, t.candidateSlotDigest, t.candidateData))
  }

  predicate OnPreviousSlot(t: Transaction, s: Selection) {
    s.slot == t.previousSlot && s.slotDigest == t.previousSlotDigest && s.data == t.previousData
  }

  predicate OnCandidateSlot(t: Transaction, s: Selection) {
    s.slot == t.candidateSlot && s.slotDigest == t.candidateSlotDigest && s.data == t.candidateData
  }

  function SelectPrevious(s: Selection, t: Transaction, expected: Digest, owner: ProcessOwner): Result<Selection, Refusal> {
    if !t.phase.PreviousSelectionIntent? then Refused(SelectionPhaseInvalid)
    else if expected != OfSelection(s) || t.installationId != s.installationId || t.previousSlotDigest == ""
    then Refused(SelectionConflict)
    else if OfSelection(s) == t.previousSelection && s.generation != ULONG_MAX && s.generation + 1 == t.generation
            && OnPreviousSlot(t, s) then Ok(s)
    else if s.generation != t.generation || s.transactionId != t.transactionId then Refused(SelectionConflict)
    else if OnPreviousSlot(t, s) then Ok(s)
    else if !OnCandidateSlot(t, s) then Refused(SelectionConflict)
    else if s.revision + 1 > ULONG_MAX then Refused(SelectionInvalid)
    else Checked(Selection(s.installationId, s.generation, s.revision + 1, OfSelection(s), owner, t.transactionId,
                           t.previousSlot, t.previousSlotDigest, t.previousData))
  }

  // ---- how a selection stands to a transaction ----

  predicate IsCandidateSelection(t: Transaction, s: Selection) {
    && s.installationId == t.installationId && s.generation == t.generation && s.transactionId == t.transactionId
    && OnCandidateSlot(t, s)
  }

  predicate IsPreviousSelection(t: Transaction, s: Selection) {
    && s.installationId == t.installationId && OnPreviousSlot(t, s)
    && (|| (s.generation < t.generation && OfSelection(s) == t.previousSelection)
        || (s.generation == t.generation && s.transactionId == t.transactionId))
  }

  /** Which of the two selections each phase of the journal allows. */
  predicate PhaseAgrees(t: Transaction, s: Selection) {
    var previous, candidate := IsPreviousSelection(t, s), IsCandidateSelection(t, s);
    match t.phase
    case CandidateReady | QuiesceIntent | Quiesced | TunnelStopIntent | TunnelStopped => previous
    case CandidateSelectionIntent | RollbackIntent | PreviousSelectionIntent => previous || candidate
    case CandidateSelected | CandidateLaunchIntent | TrialStarted | HealthVerified | CommitIntent | Committed => candidate
    case PreviousSelected | PreviousLaunchIntent | PreviousStarted | RollbackVerified | RollbackUnverified => previous
  }

  /** How far a phase is along its path. */
  function Ordinal(p: Phase): nat {
    match p
    case CandidateReady => 1
    case QuiesceIntent => 2
    case Quiesced => 3
    case TunnelStopIntent => 4
    case TunnelStopped => 5
    case CandidateSelectionIntent => 6
    case CandidateSelected => 7
    case CandidateLaunchIntent => 8
    case TrialStarted => 9
    case HealthVerified => 10
    case CommitIntent => 11
    case Committed => 12
    case RollbackIntent => 12
    case PreviousSelectionIntent => 13
    case PreviousSelected => 14
    case PreviousLaunchIntent => 15
    case PreviousStarted => 16
    case RollbackVerified => 17
    case RollbackUnverified => 17
  }

  /** Every advance the journal allows moves strictly forward. */
  lemma AdvanceClimbs(current: Phase, next: Phase)
    requires CanAdvance(current, next)
    ensures Ordinal(current) < Ordinal(next)
  {
  }
}
