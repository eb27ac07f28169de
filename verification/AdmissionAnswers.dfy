/** What each broker operation answers, and when: stated by what is on record and what was presented. */
module AdmissionAnswers {
  import opened Common
  import opened AdmissionProtocol
  import opened AdmissionState
  import opened AdmissionSteps
  import opened AdmissionPreservation
  import opened AdmissionSettlement
  import opened AdmissionRuns
  import opened AdmissionHistory

  /** The caller is still in service and the participant is its own. */
  predicate Speaks(s: State, caller: Runtime, p: string) {
    !caller.retired && p in s.participants && s.participants[p].identity == caller.identity
  }

  /** The members are these, each with the status given and nothing else changed. */
  predicate AllHave(before: map<string, Member>, after: map<string, Member>, status: MemberStatus) {
    && after.Keys == before.Keys
    && forall p :: p in before ==>
         && after[p].status == status && after[p].identity == before[p].identity
         && after[p].issued == before[p].issued && after[p].settledThrough == before[p].settledThrough
  }

  // ---- settling ----

  /** What settles a permit of a kind: for a job, that its native job is empty and released; else that the operation settled. */
  predicate Settles(kind: Kind, permitId: string, proof: Evidence) {
    proof.binding == permitId && (if kind == Job then proof.kind == NativeJobZeroAndReleased else proof.kind == OperationSettled)
  }

  /** A held permit of the caller's own is settled exactly by the proof its kind asks for, bound to its own id. */
  lemma SettleAnswer(s: State, caller: Runtime, permitId: string, proof: Evidence)
    requires permitId in s.permits && s.permits[permitId].status == Held
    ensures var permit := s.permits[permitId];
            && (Settle(s, caller, permitId, proof).Write? <==>
                  Speaks(s, caller, permit.participant) && Settles(permit.kind, permitId, proof))
            && (Speaks(s, caller, permit.participant) && !Settles(permit.kind, permitId, proof) ==>
                  Settle(s, caller, permitId, proof) == Refuse(SettlementUnproven))
  {
    hide Compact;
  }

  /** A permit already settled but still on record is only confirmed, on the same proof. */
  lemma SettledOnRecord(s: State, caller: Runtime, permitId: string, proof: Evidence)
    requires permitId in s.permits && s.permits[permitId].status == Settled
    ensures var permit := s.permits[permitId];
            && !Settle(s, caller, permitId, proof).Write?
            && (Settle(s, caller, permitId, proof) == Reply(Nothing) <==>
                  Speaks(s, caller, permit.participant) && Settles(permit.kind, permitId, proof))
  {
    hide Compact;
  }

  /** A permit whose record is gone is confirmed exactly when it is done, for its own caller, on a settling proof bound to it. */
  lemma SettledAndGone(s: State, caller: Runtime, p: string, n: nat, proof: Evidence)
    requires StateValid(s) && n <= ULONG_MAX && p in s.participants && PermitId(p, n) !in s.permits
    ensures Settle(s, caller, PermitId(p, n), proof) == Reply(Nothing) <==>
              && Speaks(s, caller, p) && View(s, p, n) == Done && proof.binding == PermitId(p, n)
              && (proof.kind == OperationSettled || proof.kind == NativeJobZeroAndReleased)
    ensures !Settle(s, caller, PermitId(p, n), proof).Write?
  {
    hide StateValid, LastDot, ParseDecimal, Decimal, PermitId, Compact;
    FewPermits(s, p);
    LastDotSplits(p, n);
    ParseOfDecimal(n);
    if s.participants[p].settledThrough < n <= s.participants[p].issued { EveryOutstandingHasRecord(s, p, n); }
  }

  /** The call that granted permit `n` of `p`, and the kind it asked for. */
  predicate GrantedBy(r: Run, g: nat, p: string, n: nat, kind: Kind)
    requires g < |r.calls| < |r.records|
  {
    && GrantTook(r, g, p) && r.calls[g].sequence == n
    && (if r.calls[g].CallEnter? then r.calls[g].kind == kind else kind == Job)
  }

  ghost predicate WasGranted(r: Run, j: nat, p: string, n: nat, kind: Kind)
    requires j <= |r.calls| < |r.records|
  {
    exists g :: 0 <= g < j && GrantedBy(r, g, p, n, kind)
  }

  /** Whatever a write leaves on record under a permit's id was there before with the same kind, or is the permit just granted. */
  lemma RecordStep(e: Envelope, c: Call, p: string, n: nat)
    requires StateValid(e.state) && Decide(e, c).Write? && PermitId(p, n) in Decide(e, c).next.permits
    ensures var id, next := PermitId(p, n), Decide(e, c).next;
            || (id in e.state.permits && next.permits[id].kind == e.state.permits[id].kind
                && next.permits[id].participant == e.state.permits[id].participant)
            || (Asks(c, next.permits[id].participant) && PermitId(next.permits[id].participant, c.sequence) == id
                && (if c.CallEnter? then c.kind == next.permits[id].kind else next.permits[id].kind == Job))
  {
    hide StateValid;
    match c
    case CallSettle(caller, permitId, proof) => SettleRecordStep(e.state, caller, permitId, proof, p, n);
    case CallEnter(caller, q, sequence, kind) => GrantPieces(e.state, caller, q, sequence, kind, "", None);
    case CallPromote(caller, q, sequence, attempt, parent) =>
      GrantPieces(e.state, caller, q, sequence, Job, attempt, Some(parent));
    case _ =>
  }

  lemma SettleRecordStep(s: State, caller: Runtime, permitId: string, proof: Evidence, p: string, n: nat)
    requires StateValid(s) && Settle(s, caller, permitId, proof).Write? && PermitId(p, n) in Settle(s, caller, permitId, proof).next.permits
    ensures var id, next := PermitId(p, n), Settle(s, caller, permitId, proof).next;
            id in s.permits && next.permits[id].kind == s.permits[id].kind && next.permits[id].participant == s.permits[id].participant
  {
    var q := s.permits[permitId].participant;
    var m := s.participants[q];
    var marked := s.permits[permitId := s.permits[permitId].(status := Settled)];
    CompactKeepsTheRest(marked, q, m.settledThrough, m.issued, PermitId(p, n));
    hide StateValid, Compact;
  }

  lemma {:induction false} CompactKeepsTheRest(permits: map<string, Permit>, p: string, watermark: nat, issued: nat, id: string)
    requires id in Compact(permits, p, watermark, issued).0
    ensures id in permits && Compact(permits, p, watermark, issued).0[id] == permits[id]
    decreases issued - watermark
  {
    hide PermitId;
    var front := PermitId(p, watermark + 1);
    if watermark < issued && front in permits && permits[front].status.Settled? {
      CompactKeepsTheRest(permits - {front}, p, watermark + 1, issued, id);
    }
  }

  /** Every record of a run is the record of a granting call, with the kind that call asked for. */
  lemma {:induction false} RecordsComeFromGrants(r: Run, j: nat, p: string, n: nat)
    requires Legal(r) && j <= |r.calls| && PermitId(p, n) in r.records[j].state.permits
    requires r.records[j].state.permits[PermitId(p, n)].participant == p
    ensures WasGranted(r, j, p, n, r.records[j].state.permits[PermitId(p, n)].kind)
  {
    hide Decide, Transition, Sound, StateValid, PermitId, CallWellFormed;
    if j > 0 {
      ReachableIsSound(r, j - 1);
      SoundIsValid(r.records[j - 1]);
      var id := PermitId(p, n);
      if Took(r, j - 1) {
        TookWrites(r, j - 1);
        RecordStep(r.records[j - 1], r.calls[j - 1], p, n);
        if id in r.records[j - 1].state.permits && r.records[j].state.permits[id].kind == r.records[j - 1].state.permits[id].kind
           && r.records[j - 1].state.permits[id].participant == p
        {
          RecordsComeFromGrants(r, j - 1, p, n);
        } else {
          PermitIdInjective(p, r.calls[j - 1].sequence, p, n);
          assert GrantedBy(r, j - 1, p, n, r.records[j].state.permits[id].kind);
        }
      } else {
        RecordsComeFromGrants(r, j - 1, p, n);
      }
    }
  }

  /**
   * In every run a permit that reads as done was granted, and later settled by a call that presented the
   * proof for the kind it was granted with, bound to its own id.
   */
  lemma DoneWasProven(r: Run, j: nat, p: string, n: nat) returns (g: nat, i: nat, kind: Kind)
    requires Legal(r) && j <= |r.calls| && p in r.records[j].state.participants && View(r.records[j].state, p, n) == Done
    ensures g < i < j && GrantedBy(r, g, p, n, kind)
    ensures SettleTook(r, i, PermitId(p, n)) && Settles(kind, PermitId(p, n), r.calls[i].proof)
  {
    DoneMeansSettled(r, j, p, n);
    hide View, Transition, Sound, StateValid, PermitId, CallWellFormed;
    var id := PermitId(p, n);
    i :| 0 <= i < j && SettleTook(r, i, id);
    ReachableIsSound(r, i);
    SoundIsValid(r.records[i]);
    TookWrites(r, i);
    var s, c := r.records[i].state, r.calls[i];
    SettleWriteNamesHeld(s, c.caller, id, c.proof);
    OwnerOfRecord(s, p, n);
    kind := s.permits[id].kind;
    RecordsComeFromGrants(r, i, p, n);
    g :| 0 <= g < i && GrantedBy(r, g, p, n, kind);
  }

  lemma SettleWriteNamesHeld(s: State, caller: Runtime, permitId: string, proof: Evidence)
    requires Settle(s, caller, permitId, proof).Write?
    ensures permitId in s.permits && s.permits[permitId].status == Held && Settles(s.permits[permitId].kind, permitId, proof)
  {
    hide Compact;
  }

  lemma OwnerOfRecord(s: State, p: string, n: nat)
    requires StateValid(s) && PermitId(p, n) in s.permits
    ensures s.permits[PermitId(p, n)].participant == p
  {
    EveryRecordIsOutstanding(s, PermitId(p, n));
    var q := s.permits[PermitId(p, n)].participant;
    KeyedIsPermitId(PermitId(p, n), q);
    PermitIdInjective(p, n, q, SequenceOf(PermitId(p, n), q));
  }

  // ---- entering and promoting ----

  /** The next permit of a valid record may be granted to this caller, but for the phase and the parent. */
  predicate MayGrow(s: State, caller: Runtime, p: string, n: nat, kind: Kind, attempt: string) {
    && Speaks(s, caller, p) && s.participants[p].status == Active
    && n == s.participants[p].issued + 1 && n <= ULONG_MAX && |s.permits| < 512
    && Identifier(PermitId(p, n)) && !kind.OtherKind? && (kind == Job ==> Identifier(attempt))
  }

  lemma GrowsExactly(s: State, caller: Runtime, p: string, n: nat, kind: Kind, attempt: string, parent: Option<string>)
    requires p in s.participants ==> s.participants[p].settledThrough <= s.participants[p].issued <= ULONG_MAX
    requires p in s.participants && n > s.participants[p].issued ==> PermitId(p, n) !in s.permits
    requires |s.permits| <= 512
    ensures AddPermit(s, caller, p, n, kind, attempt, parent).Write? <==>
              && MayGrow(s, caller, p, n, kind, attempt)
              && (if parent.None? then s.phase == Open
                  else && s.phase != Sealed && parent.value in s.permits && s.permits[parent.value].participant == p
                       && s.permits[parent.value].status == Held && s.permits[parent.value].kind != Job)
  {
    hide Identifier, PermitId;
  }

  /** A permit is entered exactly while the broker is open; the next one of an active participant of the caller's own. */
  lemma EnterAnswer(e: Envelope, caller: Runtime, p: string, n: nat, kind: Kind)
    requires StateValid(e.state)
    ensures Decide(e, CallEnter(caller, p, n, kind)).Write? <==>
              e.state.phase == Open && MayGrow(e.state, caller, p, n, kind, "")
  {
    hide StateValid, PermitId, MayGrow, AddPermit;
    NextIsNew(e.state, p, n);
    FewPermits(e.state, p);
    GrowsExactly(e.state, caller, p, n, kind, "", None);
  }

  /** A job is promoted exactly before the seal, under a held permit of the same participant that is no job itself. */
  lemma PromoteAnswer(e: Envelope, caller: Runtime, p: string, n: nat, attempt: string, parent: string)
    requires StateValid(e.state)
    ensures Decide(e, CallPromote(caller, p, n, attempt, parent)).Write? <==>
              && e.state.phase != Sealed && MayGrow(e.state, caller, p, n, Job, attempt)
              && parent in e.state.permits && e.state.permits[parent].participant == p
              && e.state.permits[parent].status == Held && e.state.permits[parent].kind != Job
  {
    hide StateValid, PermitId, MayGrow, AddPermit;
    NextIsNew(e.state, p, n);
    FewPermits(e.state, p);
    GrowsExactly(e.state, caller, p, n, Job, attempt, Some(parent));
  }

  lemma NextIsNew(s: State, p: string, n: nat)
    requires StateValid(s)
    ensures p in s.participants && n > s.participants[p].issued ==> PermitId(p, n) !in s.permits
  {
    if p in s.participants && n > s.participants[p].issued && PermitId(p, n) in s.permits {
      OwnerOfRecord(s, p, n);
      EveryRecordIsOutstanding(s, PermitId(p, n));
      KeyedIsPermitId(PermitId(p, n), p);
      PermitIdInjective(p, n, p, SequenceOf(PermitId(p, n), p));
      assert false;
    }
  }

  lemma FewPermits(s: State, p: string)
    requires StateValid(s)
    ensures |s.permits| <= 512 && |s.participants| <= 128
    ensures p in s.participants ==>
              && p != "" && s.participants[p].settledThrough <= s.participants[p].issued <= ULONG_MAX
              && s.participants[p].issued - s.participants[p].settledThrough <= 512
  {
  }

  // ---- registering, quiescing, retiring ----

  /** Registering is idempotent for an identity; a new one is taken in exactly while there is room. */
  lemma RegisterAnswer(s: State, caller: Runtime, newId: string)
    requires StateValid(s) && newId !in s.participants
    ensures var known := exists p :: KnownIdentity(s, caller.identity, p);
            && (Register(s, caller, newId).Write? <==> !caller.retired && !known && |s.participants| < 128)
            && (!caller.retired && known ==>
                  exists p :: KnownIdentity(s, caller.identity, p) && Register(s, caller, newId) == Reply(Participant(p)))
  {
    hide StateValid, Register, KnownIdentity;
    FewPermits(s, newId);
    RegisterKnown(s, caller, newId);
  }

  /** A new member starts active while the broker is open and quarantined otherwise, with nothing issued. */
  lemma RegisterTakesIn(s: State, caller: Runtime, newId: string)
    requires Register(s, caller, newId).Write? && newId !in s.participants
    ensures var d := Register(s, caller, newId);
            && d.answer == Participant(newId) && d.next == s.(participants := d.next.participants)
            && d.next.participants.Keys == s.participants.Keys + {newId}
            && (forall p :: p in s.participants ==> d.next.participants[p] == s.participants[p])
            && d.next.participants[newId]
               == Member(caller.identity, if s.phase == Open then Active else Quarantined, 0, 0)
  {
    RegisterKnown(s, caller, newId);
    RegisterPieces(s, caller, newId);
    hide Register, KnownIdentity;
  }

  lemma RegisterKnown(s: State, caller: Runtime, newId: string)
    ensures var known := exists p :: KnownIdentity(s, caller.identity, p);
            && (!caller.retired && known ==>
                  exists p :: KnownIdentity(s, caller.identity, p) && Register(s, caller, newId) == Reply(Participant(p)))
            && (Register(s, caller, newId).Write? <==> !caller.retired && !known && |s.participants| != 128)
            && (Register(s, caller, newId).Write? ==> Register(s, caller, newId).answer == Participant(newId))
  {
  }

  /** A member is quiesced exactly by its own caller, with proof bound to the present epoch, while it holds no permit. */
  lemma QuiesceAnswer(s: State, caller: Runtime, p: string, proof: Evidence)
    ensures var d := Quiesce(s, caller, p, proof);
            && (d.Write? <==>
                  && Speaks(s, caller, p) && s.participants[p].status == Active
                  && proof.kind == ParticipantQuiesced && proof.binding == p + ":" + s.epoch
                  && forall k :: k in s.permits && s.permits[k].participant == p ==> s.permits[k].status == Settled)
            && (d.Write? ==> d.next == s.(participants := s.participants[p := s.participants[p].(status := Quiesced)]))
  {
    var held := RecordsOf(s.permits, p) * HeldPermits(s);
    assert held == {} <==> forall k :: k in s.permits && s.permits[k].participant == p ==> s.permits[k].status == Settled by {
      if held != {} { var k :| k in held; }
      if k :| k in s.permits && s.permits[k].participant == p && s.permits[k].status != Settled { assert k in held; }
    }
  }

  /** A member is retired exactly on proof of its own end, once it is no longer active and nothing of it is outstanding. */
  lemma RetireAnswer(s: State, caller: Runtime, p: string, proof: Evidence)
    ensures var d := RetireParticipant(s, caller, p, proof);
            && (d.Write? <==>
                  && Speaks(s, caller, p) && s.participants[p].status != Active
                  && s.participants[p].issued == s.participants[p].settledThrough
                  && proof.kind == OwnerCessation && proof.binding == caller.identity + ":" + p)
            && (d.Write? ==> d.next == s.(participants := s.participants - {p}))
  {
  }

  // ---- the owner ----

  /** The owner presents the transaction, generation and revision on record. */
  predicate InCharge(e: Envelope, o: Owner, expected: nat) {
    e.state.transaction == o.transaction && e.state.generation == o.generation && e.revision == expected
  }

  /** A close takes an open broker for a transaction never finished, at generation one, and makes everyone active. */
  lemma CloseAnswer(e: Envelope, o: Owner, expected: nat, newEpoch: string)
    requires StateValid(e.state)
    ensures var d := Decide(e, CallClose(o, expected, newEpoch));
            && (d.Write? <==>
                  && e.state.phase == Open && o.transaction !in e.state.finished && |e.state.finished| < 256
                  && e.revision == expected && o.generation == 1)
            && (d.Write? ==>
                  && d.next.phase == Closing && d.next.epoch == newEpoch && d.next.transaction == o.transaction
                  && d.next.generation == 1 && d.next.disposition == "" && d.next.permits == e.state.permits
                  && d.next.finished == e.state.finished && AllHave(e.state.participants, d.next.participants, Active))
            && (d.Reply? <==> e.state.phase != Open && InCharge(e, o, expected))
  {
    hide StateValid, Register, AddPermit, Settle, RetireParticipant, Quiesce, Seal, RecoverOwner, Reopen;
    FinishedBound(e.state);
    assert AllActive(e.state.participants).Keys == e.state.participants.Keys;
  }

  /** Nothing is held and nobody is active. */
  predicate AtRest(s: State) {
    && (forall k :: k in s.permits ==> s.permits[k].status == Settled)
    && (forall p :: p in s.participants ==> s.participants[p].status != Active)
  }

  lemma DrainedIsAtRest(s: State)
    ensures Drained(s) <==> AtRest(s)
  {
    if k :| k in s.permits && s.permits[k].status != Settled { assert k in HeldPermits(s); }
    if p :| p in s.participants && s.participants[p].status == Active { assert p in ActiveMembers(s); }
    if !Drained(s) {
      if k :| k in HeldPermits(s) { assert s.permits[k].status == Held; }
      if p :| p in ActiveMembers(s) { assert s.participants[p].status == Active; }
    }
  }

  /** A drain receipt is given exactly to the owner in charge, once nothing is held and nobody is active. */
  lemma SealAnswer(e: Envelope, o: Owner, expected: nat)
    ensures var d := Decide(e, CallSeal(o, expected));
            var given := e.state.phase != Open && InCharge(e, o, expected) && AtRest(e.state);
            && (d.Refuse? <==> !given)
            && (given ==> d.answer == DrainReceipt(e.state.epoch, o.transaction, o.generation))
            && (d.Write? <==> given && e.state.phase == Closing)
            && (d.Write? ==> d.next == e.state.(phase := Sealed))
  {
    hide Drained, AtRest, Register, AddPermit, Settle, RetireParticipant, Quiesce, Close, RecoverOwner, Reopen;
    DrainedIsAtRest(e.state);
  }

  /** A successor takes over exactly one generation on, with proof that the present owner ended, and drains anew. */
  lemma RecoverAnswer(e: Envelope, o: Owner, expected: nat, proof: Evidence)
    requires StateValid(e.state) && OwnerWellFormed(o)
    ensures var d := Decide(e, CallRecoverOwner(o, expected, proof));
            && (d.Write? <==>
                  && e.state.phase != Open && e.state.transaction == o.transaction && o.generation == e.state.generation + 1
                  && e.revision == expected
                  && proof.kind == OwnerCessation && proof.binding == o.transaction + ":" + Decimal(e.state.generation))
            && (d.Write? ==> d.next == e.state.(phase := Closing, generation := o.generation))
  {
    hide StateValid, Decimal, Register, AddPermit, Settle, RetireParticipant, Quiesce, Close, Seal, Reopen;
  }

  /** A sealed broker reopens exactly for the owner in charge on the accepted disposition, and everyone is active again. */
  lemma ReopenAnswer(e: Envelope, o: Owner, expected: nat, disposition: string, proof: Evidence)
    ensures var d := Decide(e, CallReopen(o, expected, disposition, proof));
            var accepted := InCharge(e, o, expected) && Identifier(disposition) && proof.kind == AcceptedDisposition
                            && proof.binding == o.transaction + ":" + Decimal(o.generation) + ":" + e.state.epoch + ":" + disposition;
            && (d.Write? <==> accepted && e.state.phase == Sealed)
            && (d.Reply? <==> accepted && e.state.phase == Open && e.state.disposition == disposition)
            && (d.Write? ==>
                  && d.next.phase == Open && d.next.disposition == disposition && d.next.permits == e.state.permits
                  && d.next.finished == e.state.finished + [o.transaction] && d.next.transaction == e.state.transaction
                  && d.next.epoch == e.state.epoch && d.next.generation == e.state.generation
                  && AllHave(e.state.participants, d.next.participants, Active))
  {
    hide Decimal, Identifier, Register, AddPermit, Settle, RetireParticipant, Quiesce, Close, Seal, RecoverOwner;
    assert AllActive(e.state.participants).Keys == e.state.participants.Keys;
  }

  // ---- a whole maintenance ----

  /** While the broker is open every participant is active: nobody who registered or was kept is locked out. */
  predicate EveryoneActiveWhenOpen(s: State) {
    s.phase == Open ==> forall p :: p in s.participants ==> s.participants[p].status != Quarantined
  }

  lemma ActiveStep(e: Envelope, c: Call)
    requires EveryoneActiveWhenOpen(e.state) && Decide(e, c).Write?
    ensures EveryoneActiveWhenOpen(Decide(e, c).next)
  {
    hide Compact;
  }

  /** In every run an open broker has no quarantined member: reopening lets in whoever registered during the drain. */
  lemma {:induction false} NobodyQuarantinedWhenOpen(r: Run, j: nat)
    requires Legal(r) && j < |r.records|
    ensures EveryoneActiveWhenOpen(r.records[j].state)
  {
    hide Decide, Transition, EveryoneActiveWhenOpen;
    if j == 0 {
      NoOneYet(r.records[0].state.epoch);
    } else {
      NobodyQuarantinedWhenOpen(r, j - 1);
      if Took(r, j - 1) {
        TookWrites(r, j - 1);
        ActiveStep(r.records[j - 1], r.calls[j - 1]);
      }
    }
  }

  lemma NoOneYet(epoch: string)
    ensures EveryoneActiveWhenOpen(Initial(epoch).state)
  {
  }

  // ---- what reading a record accepts ----

  /** Key `k` is the id of an outstanding permit of `p`. */
  ghost predicate OutstandingKey(s: State, k: string, p: string) {
    exists n :: OutstandingId(s, k, p, n)
  }

  predicate OutstandingId(s: State, k: string, p: string, n: nat) {
    p in s.participants && s.participants[p].settledThrough < n <= s.participants[p].issued && k == PermitId(p, n)
  }

  /** The transaction a record names is finished exactly when the broker is open, and its disposition is kept only then. */
  predicate OwnerReadable(s: State) {
    && Guid(s.epoch) && |s.finished| <= 256
    && (forall i :: 0 <= i < |s.finished| ==> Identifier(s.finished[i]))
    && (forall i, j :: 0 <= i < j < |s.finished| ==> s.finished[i] != s.finished[j])
    && (if s.transaction == "" then s.generation == 0 && s.phase == Open
        else Identifier(s.transaction) && 1 <= s.generation <= ULONG_MAX && (s.transaction in s.finished <==> s.phase == Open))
    && (if s.phase == Open then (s.disposition == "" && s.transaction == "") || Identifier(s.disposition) else s.disposition == "")
  }

  predicate MembersReadable(s: State) {
    && |s.participants| <= 128
    && (forall p :: p in s.participants ==>
          var m := s.participants[p];
          Identifier(p) && Identifier(m.identity) && m.settledThrough <= m.issued <= ULONG_MAX && m.issued <= m.settledThrough + 512)
    && (forall p, q :: p in s.participants && q in s.participants && p != q ==> s.participants[p].identity != s.participants[q].identity)
  }

  /** One record for each outstanding permit of each member, and no other; a held one has an active owner. */
  ghost predicate PermitsReadable(s: State) {
    && |s.permits| <= 512
    && (forall k :: k in s.permits ==>
          var permit := s.permits[k];
          && Identifier(k) && OutstandingKey(s, k, permit.participant)
          && !permit.kind.OtherKind? && (if permit.kind == Job then Identifier(permit.attempt) else permit.attempt == "")
          && (permit.status == Held ==> s.participants[permit.participant].status == Active))
    && (forall p, n: nat :: p in s.participants && s.participants[p].settledThrough < n <= s.participants[p].issued ==>
          PermitId(p, n) in s.permits && s.permits[PermitId(p, n)].participant == p)
  }

  lemma OwnerReadableExactly(s: State)
    ensures OwnerReadable(s) <==> HeaderValid(s) && FinishedValid(s)
  {
    hide Guid;
    assert !Identifier("");
  }

  lemma MembersReadableExactly(s: State)
    ensures MembersReadable(s) <==> MembersValid(s.participants)
  {
    hide Identifier;
  }

  lemma ValidPermitsReadable(s: State)
    requires StateValid(s)
    ensures PermitsReadable(s)
  {
    hide Identifier, Keyed, PermitId, HeaderValid, FinishedValid, CountsValid, MembersValid, Drained;
    forall k | k in s.permits
      ensures OutstandingKey(s, k, s.permits[k].participant)
    {
      var p := s.permits[k].participant;
      EveryRecordIsOutstanding(s, k);
      KeyedIsPermitId(k, p);
      assert OutstandingId(s, k, p, SequenceOf(k, p));
    }
    forall p, n: nat | p in s.participants && s.participants[p].settledThrough < n <= s.participants[p].issued
      ensures PermitId(p, n) in s.permits && s.permits[PermitId(p, n)].participant == p
    {
      EveryOutstandingHasRecord(s, p, n);
    }
  }

  lemma ReadablePermitsValid(s: State)
    requires MembersReadable(s) && PermitsReadable(s)
    ensures PermitsValid(s.participants, s.permits)
  {
    hide Identifier, Keyed, PermitId;
    forall k | k in s.permits
      ensures PermitValid(s.participants, k, s.permits[k])
    {
      var p := s.permits[k].participant;
      assert OutstandingKey(s, k, p);
      var n :| OutstandingId(s, k, p, n);
      PermitIdIsKeyed(p, n);
    }
  }

  lemma ReadableCountsValid(s: State, p: string)
    requires MembersReadable(s) && PermitsReadable(s) && p in s.participants
    ensures |RecordsOf(s.permits, p)| == s.participants[p].issued - s.participants[p].settledThrough
  {
    hide Identifier, Keyed, PermitId, SequenceOf;
    var m, records := s.participants[p], RecordsOf(s.permits, p);
    forall k | k in records
      ensures Keyed(k, p) && SequenceOf(k, p) in Window(m)
    {
      assert OutstandingKey(s, k, p);
      var n :| OutstandingId(s, k, p, n);
      PermitIdIsKeyed(p, n);
    }
    forall n | n in Window(m)
      ensures PermitId(p, n) in records && SequenceOf(PermitId(p, n), p) == n
    {
      PermitIdIsKeyed(p, n);
    }
    var image := set k | k in records :: SequenceOf(k, p);
    assert image == Window(m);
    InjectiveImageSize(records, p);
    WindowSize(m);
  }

  /**
   * Reading accepts a state exactly when its header is in order, its members are known and distinct, there is
   * one record for each outstanding permit and no other, and a sealed state is at rest.
   */
  lemma ReadsExactly(s: State)
    ensures StateValid(s) <==>
              OwnerReadable(s) && MembersReadable(s) && PermitsReadable(s) && (s.phase == Sealed ==> AtRest(s))
  {
    hide HeaderValid, FinishedValid, MembersValid, PermitsValid, OwnerReadable, MembersReadable, PermitsReadable, Drained, AtRest;
    OwnerReadableExactly(s);
    MembersReadableExactly(s);
    DrainedIsAtRest(s);
    if StateValid(s) { ValidPermitsReadable(s); }
    if MembersReadable(s) && PermitsReadable(s) {
      ReadablePermitsValid(s);
      forall p | p in s.participants
        ensures |RecordsOf(s.permits, p)| == s.participants[p].issued - s.participants[p].settledThrough
      {
        ReadableCountsValid(s, p);
      }
      hide RecordsOf;
    }
  }
}
