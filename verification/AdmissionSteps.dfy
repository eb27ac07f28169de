/** What each broker operation decides from the current record: refuse, answer, or write a successor. */
module AdmissionSteps {
  import opened Common
  import opened AdmissionProtocol
  import opened AdmissionState

  datatype Refusal =
    | OwnerUncertain | PositionExhausted | StateRejected | StoreFailed
    | PrincipalRetired | ParticipantLimit | ParticipantMismatch
    | PermitAlreadySettled | PermitInvalid | PermitConflict | SequenceConflict | ParticipantQuiescent
    | AdmissionClosed | ParentInvalid | PermitLimit | PermitUnknown | PositionInvalid | SettlementUnproven
    | CessationUnproven | WorkHeld | QuiescenceUnproven
    | OwnerFenced | RevisionConflict | TransactionFinished | TransactionLimit
    | DrainIncomplete | RecoveryUnproven | DispositionUnproven | DispositionConflict

  datatype SettlementKind =
    OperationSettled | NativeJobZeroAndReleased | ParticipantQuiesced | OwnerCessation | AcceptedDisposition

  datatype Evidence = Evidence(kind: SettlementKind, binding: string)

  /** A caller of the runtime operations, as it stands when it calls. */
  datatype Runtime = Runtime(identity: string, retired: bool)

  /** A caller of the owner operations. */
  datatype Owner = Owner(transaction: string, generation: nat)

  predicate OwnerWellFormed(o: Owner) { Identifier(o.transaction) && 1 <= o.generation <= ULONG_MAX }

  datatype Answer =
    | Nothing
    | Participant(id: string)
    | Granted(permitId: string)
    | ExistingRequiresReconciliation
    | DrainReceipt(epoch: string, transaction: string, generation: nat)

  datatype Decision =
    | Refuse(why: Refusal)
    | Reply(answer: Answer)
    | Write(next: State, answer: Answer)

  // ---- runtime operations ----

  ghost predicate KnownIdentity(s: State, identity: string, p: string) {
    p in s.participants && s.participants[p].identity == identity
  }

  ghost function Register(s: State, caller: Runtime, newId: string): Decision {
    if caller.retired then Refuse(PrincipalRetired)
    else if p: string :| KnownIdentity(s, caller.identity, p) then Reply(Participant(p))
    else if |s.participants| == MAX_PARTICIPANTS then Refuse(ParticipantLimit)
    else
      var status := if s.phase == Open then Active else Quarantined;
      Write(s.(participants := s.participants[newId := Member(caller.identity, status, 0, 0)]), Participant(newId))
  }

  /** The refusal of the shared membership check, if it refuses. */
  function Membership(s: State, caller: Runtime, participant: string): Option<Refusal> {
    if caller.retired then Some(PrincipalRetired)
    else if participant !in s.participants || s.participants[participant].identity != caller.identity
    then Some(ParticipantMismatch)
    else None
  }

  /** `Enter` passes no attempt and no parent; `Promote` passes kind `Job` with both. */
  function AddPermit(s: State, caller: Runtime, participant: string, sequence: nat, kind: Kind,
                     attempt: string, parent: Option<string>): Decision
  {
    var refusal := Membership(s, caller, participant);
    if refusal.Some? then Refuse(refusal.value) else
    var m := s.participants[participant];
    var id := PermitId(participant, sequence);
    if sequence == 0 || sequence <= m.settledThrough then Refuse(PermitAlreadySettled)
    else if !Identifier(id) || kind.OtherKind? || (kind.Job? && !Identifier(attempt)) then Refuse(PermitInvalid)
    else if id in s.permits then
      var known := s.permits[id];
      if known.participant != participant || known.kind != kind || known.attempt != attempt then Refuse(PermitConflict)
      else if !known.status.Held? then Refuse(PermitAlreadySettled)
      else Reply(ExistingRequiresReconciliation)
    else if m.issued == ULONG_MAX || sequence != m.issued + 1 then Refuse(SequenceConflict)
    else if !m.status.Active? then Refuse(ParticipantQuiescent)
    else if (if parent.None? then s.phase != Open else s.phase == Sealed) then Refuse(AdmissionClosed)
    else if parent.Some? && !ParentHeld(s, participant, parent.value) then Refuse(ParentInvalid)
    else if |s.permits| == MAX_PERMITS then Refuse(PermitLimit)
    else
      Write(s.(permits := s.permits[id := Permit(participant, kind, Held, attempt)],
               participants := s.participants[participant := m.(issued := sequence)]),
            Granted(id))
  }

  predicate ParentHeld(s: State, participant: string, parent: string) {
    && parent in s.permits
    && s.permits[parent].participant == participant
    && s.permits[parent].status.Held?
    && !s.permits[parent].kind.Job?
  }

  /** Drops the settled records at the front of the window and returns the new watermark. */
  function Compact(permits: map<string, Permit>, p: string, watermark: nat, issued: nat): (map<string, Permit>, nat)
    decreases issued - watermark
  {
    var id := PermitId(p, watermark + 1);
    if watermark < issued && id in permits && permits[id].status.Settled?
    then Compact(permits - {id}, p, watermark + 1, issued)
    else (permits, watermark)
  }

  function Settle(s: State, caller: Runtime, permitId: string, proof: Evidence): Decision {
    if permitId !in s.permits then
      var split := LastDot(permitId);
      if split < 1 then Refuse(PermitUnknown) else
      var prior := permitId[..split];
      var refusal := Membership(s, caller, prior);
      if refusal.Some? then Refuse(refusal.value) else
      var sequence := ParseDecimal(permitId[split + 1..]);
      if sequence.None? then Refuse(PositionInvalid)
      else if sequence.value == 0 || sequence.value > s.participants[prior].settledThrough
              || proof.binding != permitId
              || !(proof.kind.OperationSettled? || proof.kind.NativeJobZeroAndReleased?)
      then Refuse(PermitUnknown)
      else Reply(Nothing)
    else
      var permit := s.permits[permitId];
      var refusal := Membership(s, caller, permit.participant);
      if refusal.Some? then Refuse(refusal.value) else
      var required := if permit.kind.Job? then NativeJobZeroAndReleased else OperationSettled;
      if proof.kind != required || proof.binding != permitId then Refuse(SettlementUnproven)
      else if permit.status.Settled? then Reply(Nothing)
      else
        var p := permit.participant;
        var m := s.participants[p];
        var marked := s.permits[permitId := permit.(status := Settled)];
        var (records, watermark) := Compact(marked, p, m.settledThrough, m.issued);
        Write(s.(permits := records, participants := s.participants[p := m.(settledThrough := watermark)]), Nothing)
  }

  function RetireParticipant(s: State, caller: Runtime, participant: string, proof: Evidence): Decision {
    var refusal := Membership(s, caller, participant);
    if refusal.Some? then Refuse(refusal.value) else
    var m := s.participants[participant];
    if proof != Evidence(OwnerCessation, caller.identity + ":" + participant) then Refuse(CessationUnproven)
    else if m.status.Active? || m.issued != m.settledThrough then Refuse(WorkHeld)
    else Write(s.(participants := s.participants - {participant}), Nothing)
  }

  function QuiesceBinding(participant: string, epoch: string): string { participant + ":" + epoch }

  function Quiesce(s: State, caller: Runtime, participant: string, proof: Evidence): Decision {
    var refusal := Membership(s, caller, participant);
    if refusal.Some? then Refuse(refusal.value) else
    var m := s.participants[participant];
    if proof != Evidence(ParticipantQuiesced, QuiesceBinding(participant, s.epoch)) then Refuse(QuiescenceUnproven)
    else if RecordsOf(s.permits, participant) * HeldPermits(s) != {} then Refuse(WorkHeld)
    else if !m.status.Active? then Reply(Nothing)
    else Write(s.(participants := s.participants[participant := m.(status := Quiesced)]), Nothing)
  }

  // ---- owner operations ----

  function AllActive(members: map<string, Member>): map<string, Member> {
    map p | p in members :: members[p].(status := Active)
  }

  function Fence(s: State, revision: nat, owner: Owner, expected: nat): Option<Refusal> {
    if s.transaction != owner.transaction || s.generation != owner.generation then Some(OwnerFenced)
    else if revision != expected then Some(RevisionConflict)
    else None
  }

  function Close(s: State, revision: nat, owner: Owner, expected: nat, newEpoch: string): Decision {
    if s.phase != Open then
      var refusal := Fence(s, revision, owner, expected);
      if refusal.Some? then Refuse(refusal.value) else Reply(Nothing)
    else if owner.transaction in s.finished then Refuse(TransactionFinished)
    else if |s.finished| == MAX_FINISHED then Refuse(TransactionLimit)
    else if revision != expected || owner.generation != 1 then Refuse(RevisionConflict)
    else
      Write(s.(phase := Closing, epoch := newEpoch, transaction := owner.transaction,
               generation := owner.generation, disposition := "",
               participants := AllActive(s.participants)),
            Nothing)
  }

  function Seal(s: State, revision: nat, owner: Owner, expected: nat): Decision {
    var refusal := Fence(s, revision, owner, expected);
    var receipt := DrainReceipt(s.epoch, owner.transaction, owner.generation);
    if refusal.Some? then Refuse(refusal.value)
    else if s.phase == Open || !Drained(s) then Refuse(DrainIncomplete)
    else if s.phase == Sealed then Reply(receipt)
    else Write(s.(phase := Sealed), receipt)
  }

  function RecoverOwner(s: State, revision: nat, successor: Owner, expected: nat, proof: Evidence): Decision {
    if s.phase == Open || s.transaction != successor.transaction || s.generation == ULONG_MAX
       || successor.generation != s.generation + 1 || revision != expected
       || proof != Evidence(OwnerCessation, successor.transaction + ":" + Decimal(s.generation))
    then Refuse(RecoveryUnproven)
    else Write(s.(generation := successor.generation, phase := Closing), Nothing)
  }

  function Reopen(s: State, revision: nat, owner: Owner, expected: nat, disposition: string, proof: Evidence): Decision {
    var refusal := Fence(s, revision, owner, expected);
    if refusal.Some? then Refuse(refusal.value)
    else if !Identifier(disposition)
            || proof != Evidence(AcceptedDisposition, owner.transaction + ":" + Decimal(owner.generation) + ":" + s.epoch + ":" + disposition)
    then Refuse(DispositionUnproven)
    else if s.phase == Open then (if s.disposition != disposition then Refuse(DispositionConflict) else Reply(Nothing))
    else if s.phase != Sealed then Refuse(DrainIncomplete)
    else
      Write(s.(phase := Open, disposition := disposition, finished := s.finished + [owner.transaction],
               participants := AllActive(s.participants)),
            Nothing)
  }

  // ---- all of them together ----

  datatype Call =
    | CallRegister(caller: Runtime, newId: string)
    | CallEnter(caller: Runtime, participant: string, sequence: nat, kind: Kind)
    | CallPromote(caller: Runtime, participant: string, sequence: nat, attempt: string, parent: string)
    | CallSettle(caller: Runtime, permitId: string, proof: Evidence)
    | CallRetire(caller: Runtime, participant: string, proof: Evidence)
    | CallQuiesce(caller: Runtime, participant: string, proof: Evidence)
    | CallClose(owner: Owner, expected: nat, newEpoch: string)
    | CallSeal(owner: Owner, expected: nat)
    | CallRecoverOwner(owner: Owner, expected: nat, proof: Evidence)
    | CallReopen(owner: Owner, expected: nat, disposition: string, proof: Evidence)

  /** Callers are authenticated principals, positions are 64-bit, and minted ids are GUIDs. */
  predicate CallWellFormed(c: Call) {
    match c
    case CallRegister(caller, newId) => Identifier(caller.identity) && Guid(newId)
    case CallEnter(_, _, sequence, _) => sequence <= ULONG_MAX
    case CallPromote(_, _, sequence, _, _) => sequence <= ULONG_MAX
    case CallClose(owner, _, newEpoch) => OwnerWellFormed(owner) && Guid(newEpoch)
    case CallSeal(owner, _) => OwnerWellFormed(owner)
    case CallRecoverOwner(owner, _, _) => OwnerWellFormed(owner)
    case CallReopen(owner, _, _, _) => OwnerWellFormed(owner)
    case _ => true
  }

  ghost function Decide(e: Envelope, c: Call): Decision {
    match c
    case CallRegister(caller, newId) => Register(e.state, caller, newId)
    case CallEnter(caller, participant, sequence, kind) =>
      AddPermit(e.state, caller, participant, sequence, kind, "", None)
    case CallPromote(caller, participant, sequence, attempt, parent) =>
      AddPermit(e.state, caller, participant, sequence, Job, attempt, Some(parent))
    case CallSettle(caller, permitId, proof) => Settle(e.state, caller, permitId, proof)
    case CallRetire(caller, participant, proof) => RetireParticipant(e.state, caller, participant, proof)
    case CallQuiesce(caller, participant, proof) => Quiesce(e.state, caller, participant, proof)
    case CallClose(owner, expected, newEpoch) => Close(e.state, e.revision, owner, expected, newEpoch)
    case CallSeal(owner, expected) => Seal(e.state, e.revision, owner, expected)
    case CallRecoverOwner(owner, expected, proof) => RecoverOwner(e.state, e.revision, owner, expected, proof)
    case CallReopen(owner, expected, disposition, proof) =>
      Reopen(e.state, e.revision, owner, expected, disposition, proof)
  }

  /** The envelope a successful save publishes. */
  function Successor(e: Envelope, next: State): Envelope { Envelope(e.revision + 1, DigestOf(e), next) }
}
