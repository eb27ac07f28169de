/** The broker process: in-memory state over the published record, poisoned by any failed save. */
module AdmissionCore {
  import opened Common
  import opened AdmissionProtocol
  import opened AdmissionState
  import opened AdmissionSteps
  import opened AdmissionRuns

  /** What the store does to one save: it may fail before, between or after its two file operations. */
  datatype Store = Works | StageFails | PublishFails | ReadbackFails

  ghost function SaveRefusal(e: Envelope, next: State, store: Store): Option<Refusal> {
    if e.revision == ULONG_MAX then Some(PositionExhausted)
    else if !StateValid(next) then Some(StateRejected)
    else if store != Works then Some(StoreFailed)
    else None
  }

  /** The files after a save was tried: the published record and the stage. */
  ghost function Files(e: Envelope, next: State, store: Store): (Envelope, Option<Envelope>) {
    if e.revision == ULONG_MAX || !StateValid(next) || store == StageFails then (e, None)
    else if store == PublishFails then (e, Some(Successor(e, next)))
    else (Successor(e, next), None)
  }

  /** The files, the result and the poisoning that a decision leads to. */
  ghost predicate CarriedOut(e: Envelope, d: Decision, store: Store,
                             files: (Envelope, Option<Envelope>), poisoned: bool, result: Result<Answer, Refusal>)
  {
    match d
    case Refuse(why) => result == Refused(why) && files == (e, None) && !poisoned
    case Reply(answer) => result == Ok(answer) && files == (e, None) && !poisoned
    case Write(next, answer) =>
      && files == Files(e, next, store)
      && result == (if SaveRefusal(e, next, store).Some? then Refused(SaveRefusal(e, next, store).value) else Ok(answer))
      && (poisoned <==> result == Refused(StoreFailed))
  }

  /** An authenticated runtime caller; retirement is permanent. */
  class RuntimePrincipal {
    const identity: string
    var retired: bool

    constructor (identity: string)
      requires Identifier(identity)
      ensures this.identity == identity && !retired
    {
      this.identity := identity;
      retired := false;
    }

    function Caller(): Runtime
      reads this
    {
      Runtime(identity, retired)
    }
  }

  class Core {
    var published: Envelope
    var pending: Option<Envelope>
    var current: Envelope
    var poisoned: bool

    ghost predicate Valid()
      reads this
    {
      && EnvelopeValid(published)
      && (!poisoned ==> current == published && pending.None?)
    }

    constructor (published: Envelope)
      requires EnvelopeValid(published)
      ensures Valid() && !poisoned && this.published == published
    {
      this.published, current, pending, poisoned := published, published, None, false;
    }

    /** Start-up: a leftover stage, a missing record or one `Parse` rejects refuses the start. */
    static method Start(published: Option<Envelope>, pending: Option<Envelope>) returns (r: Result<Core, ()>)
      ensures r.Ok? <==> pending.None? && published.Some? && EnvelopeValid(published.value)
      ensures r.Ok? ==> fresh(r.value) && r.value.Valid() && !r.value.poisoned && r.value.published == published.value
    {
      if pending.Some? || published.None? { return Refused(()); }
      var ok := Parse(published.value);
      if !ok { return Refused(()); }
      var core := new Core(published.value);
      return Ok(core);
    }

    ghost predicate Now(e: Envelope, d: Decision, store: Store, result: Result<Answer, Refusal>)
      reads this
    {
      && Valid()
      && CarriedOut(e, d, store, (published, pending), poisoned, result)
    }

    method Save(next: State, store: Store) returns (refusal: Option<Refusal>)
      requires Valid() && !poisoned
      modifies this
      ensures Valid()
      ensures refusal == SaveRefusal(old(current), next, store)
      ensures (published, pending) == Files(old(current), next, store)
      ensures poisoned <==> refusal == Some(StoreFailed)
    {
      hide StateValid;
      if current.revision == ULONG_MAX { return Some(PositionExhausted); }
      var bytes := Successor(current, next);
      var ok := Parse(bytes);
      if !ok { return Some(StateRejected); }
      match store {
        case StageFails => poisoned := true;
        case PublishFails => pending := Some(bytes); poisoned := true;
        case ReadbackFails => published := bytes; poisoned := true;
        case Works => published, current := bytes, bytes;
      }
      return if poisoned then Some(StoreFailed) else None;
    }

    /** Saves and turns the outcome into the caller's result. */
    method Finish(next: State, answer: Answer, store: Store) returns (r: Result<Answer, Refusal>)
      requires Valid() && !poisoned
      modifies this
      ensures Now(old(current), Write(next, answer), store, r)
    {
      var refusal := Save(next, store);
      r := if refusal.Some? then Refused(refusal.value) else Ok(answer);
    }

    method FindMember(identity: string) returns (p: Option<string>)
      ensures p.Some? ==> KnownIdentity(current.state, identity, p.value)
      ensures p.None? ==> forall q :: !KnownIdentity(current.state, identity, q)
    {
      var members := current.state.participants;
      var left := members.Keys;
      while left != {}
        invariant left <= members.Keys
        invariant forall q :: q in members.Keys - left ==> members[q].identity != identity
        decreases left
      {
        var q :| q in left;
        if members[q].identity == identity { return Some(q); }
        left := left - {q};
      }
      return None;
    }

    method Register(principal: RuntimePrincipal, newId: string, store: Store) returns (r: Result<Answer, Refusal>)
      requires Valid() && Guid(newId) && newId !in current.state.participants
      modifies this
      ensures old(poisoned) ==> r == Refused(OwnerUncertain) && unchanged(this)
      ensures !old(poisoned) ==> Now(old(current), AdmissionSteps.Register(old(current.state), principal.Caller(), newId), store, r)
    {
      hide StateValid, Identifier;
      if poisoned { return Refused(OwnerUncertain); }
      if principal.retired { return Refused(PrincipalRetired); }
      var previous := FindMember(principal.identity);
      if previous.Some? {
        SameMember(principal.Caller(), previous.value, newId);
        return Ok(Participant(previous.value));
      }
      if |current.state.participants| == MAX_PARTICIPANTS { return Refused(ParticipantLimit); }
      var status := if current.state.phase == Open then Active else Quarantined;
      var members := current.state.participants[newId := Member(principal.identity, status, 0, 0)];
      r := Finish(current.state.(participants := members), Participant(newId), store);
    }

    /** Identities are unique, so whichever registration is found first is the only one. */
    lemma SameMember(caller: Runtime, p: string, newId: string)
      requires Valid() && !poisoned && !caller.retired && KnownIdentity(current.state, caller.identity, p)
      ensures AdmissionSteps.Register(current.state, caller, newId) == Reply(Participant(p))
    {
      assert MembersValid(current.state.participants);
    }

    method Enter(principal: RuntimePrincipal, participant: string, sequence: nat, kind: Kind, store: Store)
      returns (r: Result<Answer, Refusal>)
      requires Valid() && sequence <= ULONG_MAX
      modifies this
      ensures old(poisoned) ==> r == Refused(OwnerUncertain) && unchanged(this)
      ensures !old(poisoned) ==>
                Now(old(current), AddPermit(old(current.state), principal.Caller(), participant, sequence, kind, "", None), store, r)
    {
      r := Add(principal, participant, sequence, kind, "", None, store);
    }

    method Promote(principal: RuntimePrincipal, participant: string, sequence: nat, attempt: string, parent: string, store: Store)
      returns (r: Result<Answer, Refusal>)
      requires Valid() && sequence <= ULONG_MAX
      modifies this
      ensures old(poisoned) ==> r == Refused(OwnerUncertain) && unchanged(this)
      ensures !old(poisoned) ==>
                Now(old(current), AddPermit(old(current.state), principal.Caller(), participant, sequence, Job, attempt, Some(parent)), store, r)
    {
      r := Add(principal, participant, sequence, Job, attempt, Some(parent), store);
    }

    method Add(principal: RuntimePrincipal, participant: string, sequence: nat, kind: Kind, attempt: string,
               parent: Option<string>, store: Store)
      returns (r: Result<Answer, Refusal>)
      requires Valid() && sequence <= ULONG_MAX
      modifies this
      ensures old(poisoned) ==> r == Refused(OwnerUncertain) && unchanged(this)
      ensures !old(poisoned) ==>
                Now(old(current), AddPermit(old(current.state), principal.Caller(), participant, sequence, kind, attempt, parent), store, r)
    {
      hide StateValid, Identifier;
      if poisoned { return Refused(OwnerUncertain); }
      var s := current.state;
      var refusal := Membership(s, principal.Caller(), participant);
      if refusal.Some? { return Refused(refusal.value); }
      var m := s.participants[participant];
      var id := PermitId(participant, sequence);
      if sequence == 0 || sequence <= m.settledThrough { return Refused(PermitAlreadySettled); }
      if !Identifier(id) || kind.OtherKind? || (kind.Job? && !Identifier(attempt)) { return Refused(PermitInvalid); }
      if id in s.permits {
        var known := s.permits[id];
        if known.participant != participant || known.kind != kind || known.attempt != attempt { return Refused(PermitConflict); }
        if known.status.Settled? { return Refused(PermitAlreadySettled); }
        return Ok(ExistingRequiresReconciliation);
      }
      if m.issued == ULONG_MAX || sequence != m.issued + 1 { return Refused(SequenceConflict); }
      if !m.status.Active? { return Refused(ParticipantQuiescent); }
      if parent.None? && s.phase != Open { return Refused(AdmissionClosed); }
      if parent.Some? && s.phase == Sealed { return Refused(AdmissionClosed); }
      if parent.Some? && !ParentHeld(s, participant, parent.value) { return Refused(ParentInvalid); }
      if |s.permits| == MAX_PERMITS { return Refused(PermitLimit); }
      var next := s.(permits := s.permits[id := Permit(participant, kind, Held, attempt)],
                     participants := s.participants[participant := m.(issued := sequence)]);
      r := Finish(next, Granted(id), store);
    }

    method Settle(principal: RuntimePrincipal, permitId: string, proof: Evidence, store: Store)
      returns (r: Result<Answer, Refusal>)
      requires Valid()
      modifies this
      ensures old(poisoned) ==> r == Refused(OwnerUncertain) && unchanged(this)
      ensures !old(poisoned) ==>
                Now(old(current), AdmissionSteps.Settle(old(current.state), principal.Caller(), permitId, proof), store, r)
    {
      hide StateValid, Identifier, Keyed, Compact;
      if poisoned { return Refused(OwnerUncertain); }
      var s := current.state;
      if permitId !in s.permits {
        var split := LastDot(permitId);
        if split < 1 { return Refused(PermitUnknown); }
        var prior := permitId[..split];
        var refusal := Membership(s, principal.Caller(), prior);
        if refusal.Some? { return Refused(refusal.value); }
        var sequence := ParseDecimal(permitId[split + 1..]);
        if sequence.None? { return Refused(PositionInvalid); }
        if sequence.value == 0 || sequence.value > s.participants[prior].settledThrough
           || proof.binding != permitId || !(proof.kind.OperationSettled? || proof.kind.NativeJobZeroAndReleased?)
        {
          return Refused(PermitUnknown);
        }
        return Ok(Nothing);
      }
      var permit := s.permits[permitId];
      var refusal := Membership(s, principal.Caller(), permit.participant);
      if refusal.Some? { return Refused(refusal.value); }
      var required := if permit.kind.Job? then NativeJobZeroAndReleased else OperationSettled;
      if proof.kind != required || proof.binding != permitId { return Refused(SettlementUnproven); }
      if permit.status.Settled? { return Ok(Nothing); }
      var participant := permit.participant;
      var member := s.participants[participant];
      var records, watermark := Advance(s.permits[permitId := permit.(status := Settled)], participant,
                                        member.settledThrough, member.issued);
      var next := s.(permits := records, participants := s.participants[participant := member.(settledThrough := watermark)]);
      r := Finish(next, Nothing, store);
    }

    /** The watermark loop: removes the settled records at the front, one by one. */
    static method Advance(permits: map<string, Permit>, participant: string, settled: nat, issued: nat)
      returns (records: map<string, Permit>, watermark: nat)
      ensures (records, watermark) == Compact(permits, participant, settled, issued)
    {
      records, watermark := permits, settled;
      while watermark < issued
        invariant Compact(records, participant, watermark, issued) == Compact(permits, participant, settled, issued)
        decreases issued - watermark
      {
        var id := PermitId(participant, watermark + 1);
        if id !in records || !records[id].status.Settled? { return; }
        records := records - {id};
        watermark := watermark + 1;
      }
    }

    method RetireParticipant(principal: RuntimePrincipal, participant: string, proof: Evidence, store: Store)
      returns (r: Result<Answer, Refusal>)
      requires Valid()
      modifies this, principal
      ensures old(poisoned) ==> r == Refused(OwnerUncertain) && unchanged(this)
      ensures !old(poisoned) ==>
                Now(old(current), AdmissionSteps.RetireParticipant(old(current.state), old(principal.Caller()), participant, proof), store, r)
      ensures principal.retired <==> old(principal.retired) || r.Ok?
    {
      hide StateValid, Identifier;
      if poisoned { return Refused(OwnerUncertain); }
      var s := current.state;
      var refusal := Membership(s, principal.Caller(), participant);
      if refusal.Some? { return Refused(refusal.value); }
      var m := s.participants[participant];
      if proof != Evidence(OwnerCessation, principal.identity + ":" + participant) { return Refused(CessationUnproven); }
      if m.status.Active? || m.issued != m.settledThrough { return Refused(WorkHeld); }
      r := Finish(s.(participants := s.participants - {participant}), Nothing, store);
      if r.Ok? { principal.retired := true; }
    }

    method Quiesce(principal: RuntimePrincipal, participant: string, proof: Evidence, store: Store)
      returns (r: Result<Answer, Refusal>)
      requires Valid()
      modifies this
      ensures old(poisoned) ==> r == Refused(OwnerUncertain) && unchanged(this)
      ensures !old(poisoned) ==>
                Now(old(current), AdmissionSteps.Quiesce(old(current.state), principal.Caller(), participant, proof), store, r)
    {
      hide StateValid, Identifier;
      if poisoned { return Refused(OwnerUncertain); }
      var s := current.state;
      var refusal := Membership(s, principal.Caller(), participant);
      if refusal.Some? { return Refused(refusal.value); }
      var m := s.participants[participant];
      if proof != Evidence(ParticipantQuiesced, QuiesceBinding(participant, s.epoch)) { return Refused(QuiescenceUnproven); }
      if RecordsOf(s.permits, participant) * HeldPermits(s) != {} { return Refused(WorkHeld); }
      if !m.status.Active? { return Ok(Nothing); }
      r := Finish(s.(participants := s.participants[participant := m.(status := Quiesced)]), Nothing, store);
    }

    method Close(owner: Owner, expected: nat, newEpoch: string, store: Store) returns (r: Result<Answer, Refusal>)
      requires Valid() && OwnerWellFormed(owner) && Guid(newEpoch)
      modifies this
      ensures old(poisoned) ==> r == Refused(OwnerUncertain) && unchanged(this)
      ensures !old(poisoned) ==>
                Now(old(current), AdmissionSteps.Close(old(current.state), old(current.revision), owner, expected, newEpoch), store, r)
    {
      if poisoned { return Refused(OwnerUncertain); }
      var s := current.state;
      if s.phase != Open {
        var refusal := Fence(s, current.revision, owner, expected);
        if refusal.Some? { return Refused(refusal.value); }
        return Ok(Nothing);
      }
      if owner.transaction in s.finished { return Refused(TransactionFinished); }
      if |s.finished| == MAX_FINISHED { return Refused(TransactionLimit); }
      if current.revision != expected || owner.generation != 1 { return Refused(RevisionConflict); }
      var next := s.(phase := Closing, epoch := newEpoch, transaction := owner.transaction,
                     generation := owner.generation, disposition := "", participants := AllActive(s.participants));
      r := Finish(next, Nothing, store);
    }

    method Seal(owner: Owner, expected: nat, store: Store) returns (r: Result<Answer, Refusal>)
      requires Valid() && OwnerWellFormed(owner)
      modifies this
      ensures old(poisoned) ==> r == Refused(OwnerUncertain) && unchanged(this)
      ensures !old(poisoned) ==>
                Now(old(current), AdmissionSteps.Seal(old(current.state), old(current.revision), owner, expected), store, r)
    {
      if poisoned { return Refused(OwnerUncertain); }
      var s := current.state;
      var refusal := Fence(s, current.revision, owner, expected);
      if refusal.Some? { return Refused(refusal.value); }
      if s.phase == Open || !Drained(s) { return Refused(DrainIncomplete); }
      var receipt := DrainReceipt(s.epoch, owner.transaction, owner.generation);
      if s.phase == Sealed { return Ok(receipt); }
      r := Finish(s.(phase := Sealed), receipt, store);
    }

    method RecoverOwner(successor: Owner, expected: nat, proof: Evidence, store: Store) returns (r: Result<Answer, Refusal>)
      requires Valid() && OwnerWellFormed(successor)
      modifies this
      ensures old(poisoned) ==> r == Refused(OwnerUncertain) && unchanged(this)
      ensures !old(poisoned) ==>
                Now(old(current), AdmissionSteps.RecoverOwner(old(current.state), old(current.revision), successor, expected, proof), store, r)
    {
      if poisoned { return Refused(OwnerUncertain); }
      var s := current.state;
      if s.phase == Open || s.transaction != successor.transaction || s.generation == ULONG_MAX
         || successor.generation != s.generation + 1 || current.revision != expected
         || proof != Evidence(OwnerCessation, successor.transaction + ":" + Decimal(s.generation))
      {
        return Refused(RecoveryUnproven);
      }
      r := Finish(s.(generation := successor.generation, phase := Closing), Nothing, store);
    }

    method Reopen(owner: Owner, expected: nat, disposition: string, proof: Evidence, store: Store)
      returns (r: Result<Answer, Refusal>)
      requires Valid() && OwnerWellFormed(owner)
      modifies this
      ensures old(poisoned) ==> r == Refused(OwnerUncertain) && unchanged(this)
      ensures !old(poisoned) ==>
                Now(old(current), AdmissionSteps.Reopen(old(current.state), old(current.revision), owner, expected, disposition, proof), store, r)
    {
      if poisoned { return Refused(OwnerUncertain); }
      var s := current.state;
      var refusal := Fence(s, current.revision, owner, expected);
      if refusal.Some? { return Refused(refusal.value); }
      var binding := owner.transaction + ":" + Decimal(owner.generation) + ":" + s.epoch + ":" + disposition;
      if !Identifier(disposition) || proof != Evidence(AcceptedDisposition, binding) { return Refused(DispositionUnproven); }
      if s.phase == Open {
        if s.disposition != disposition { return Refused(DispositionConflict); }
        return Ok(Nothing);
      }
      if s.phase != Sealed { return Refused(DrainIncomplete); }
      var next := s.(phase := Open, disposition := disposition, finished := s.finished + [owner.transaction],
                     participants := AllActive(s.participants));
      r := Finish(next, Nothing, store);
    }
  }

  /** Whatever the store does, carrying out a call is one durable transition of the run model. */
  lemma CarriedOutIsTransition(e: Envelope, c: Call, store: Store, files: (Envelope, Option<Envelope>),
                               poisoned: bool, result: Result<Answer, Refusal>)
    requires CarriedOut(e, Decide(e, c), store, files, poisoned, result)
    requires PositionValid(e)
    ensures Transition(e, c, files.0)
  {
    hide Decide, StateValid;
  }

  /** From a sound record no save is refused for what it would write. */
  lemma ReparseNeverRejects(e: Envelope, c: Call, store: Store, files: (Envelope, Option<Envelope>),
                            poisoned: bool, result: Result<Answer, Refusal>)
    requires Sound(e) && CallWellFormed(c) && FreshFor(e.state, c)
    requires CarriedOut(e, Decide(e, c), store, files, poisoned, result)
    ensures Sound(files.0)
    ensures Decide(e, c).Write? ==> result != Refused(StateRejected)
    ensures Decide(e, c).Write? && e.revision < ULONG_MAX && store.Works? ==> files.0 == Successor(e, Decide(e, c).next)
  {
    hide Decide, StateValid, CallWellFormed, Transition;
    CarriedOutIsTransition(e, c, store, files, poisoned, result);
    TransitionKeepsSound(e, c, files.0);
    if Decide(e, c).Write? {
      OwnerFields(e, c);
      WriteIsValidExactly(e, c);
    }
  }
}
