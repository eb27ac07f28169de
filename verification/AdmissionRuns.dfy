/** Whole runs of the broker: every sequence of calls, each of which may be lost at any store fault or restart. */
module AdmissionRuns {
  import opened Common
  import opened AdmissionProtocol
  import opened AdmissionState
  import opened AdmissionSteps
  import opened AdmissionPreservation
  import opened AdmissionSettlement

  /** What reachable records satisfy; the last two parts are more than `Parse` asks. */
  ghost predicate Sound(e: Envelope) {
    && EnvelopeValid(e)
    && Compacted(e.state)
    && (e.state.phase != Open ==> |e.state.finished| < MAX_FINISHED)
  }

  /** A minted id is new. */
  predicate FreshFor(s: State, c: Call) { c.CallRegister? ==> c.newId !in s.participants }

  lemma CompactedUnder(s: State, n: State)
    requires Compacted(s) && n.permits == s.permits
    requires forall p :: p in n.participants ==>
               p in s.participants
               && n.participants[p].issued == s.participants[p].issued
               && n.participants[p].settledThrough == s.participants[p].settledThrough
    ensures Compacted(n)
  {
    forall p | p in n.participants
      ensures FrontHeld(n, p)
    {
      assert FrontHeld(s, p);
    }
  }

  lemma RegisterKeepsCompacted(s: State, caller: Runtime, newId: string)
    requires Compacted(s) && Register(s, caller, newId).Write? && newId !in s.participants
    ensures Compacted(Register(s, caller, newId).next)
  {
    var n := Register(s, caller, newId).next;
    forall p | p in n.participants
      ensures FrontHeld(n, p)
    {
      if p != newId {
        assert FrontHeld(s, p);
      }
    }
  }

  /** Validity of every write, on every state `Parse` accepts, with the one exception stated exactly. */
  lemma WriteIsValidExactly(e: Envelope, c: Call)
    requires StateValid(e.state) && CallWellFormed(c) && FreshFor(e.state, c) && Decide(e, c).Write?
    ensures StateValid(Decide(e, c).next) <==> (c.CallReopen? ==> |e.state.finished| < MAX_FINISHED)
  {
    hide StateValid;
    match c
    case CallRegister(caller, newId) => RegisterKeepsValid(e.state, caller, newId);
    case CallEnter(caller, p, sequence, kind) => AddPermitKeepsValid(e.state, caller, p, sequence, kind, "", None);
    case CallPromote(caller, p, sequence, attempt, parent) =>
      AddPermitKeepsValid(e.state, caller, p, sequence, Job, attempt, Some(parent));
    case CallSettle(caller, permitId, proof) => SettleKeepsValid(e.state, caller, permitId, proof);
    case CallRetire(caller, p, proof) => RetireKeepsValid(e.state, caller, p, proof);
    case CallQuiesce(caller, p, proof) => QuiesceKeepsValid(e.state, caller, p, proof);
    case CallClose(owner, expected, newEpoch) => CloseKeepsValid(e.state, e.revision, owner, expected, newEpoch);
    case CallSeal(owner, expected) => SealKeepsValid(e.state, e.revision, owner, expected);
    case CallRecoverOwner(owner, expected, proof) => RecoverKeepsValid(e.state, e.revision, owner, expected, proof);
    case CallReopen(owner, expected, disposition, proof) =>
      ReopenKeepsValidExactly(e.state, e.revision, owner, expected, disposition, proof);
  }

  /** Writes keep the front of every window held. */
  lemma WriteKeepsCompacted(e: Envelope, c: Call)
    requires StateValid(e.state) && Compacted(e.state) && FreshFor(e.state, c) && Decide(e, c).Write?
    ensures Compacted(Decide(e, c).next)
  {
    hide StateValid, Compacted;
    var s := e.state;
    match c
    case CallRegister(caller, newId) => RegisterKeepsCompacted(s, caller, newId);
    case CallEnter(caller, p, sequence, kind) =>
      GrantPieces(s, caller, p, sequence, kind, "", None);
      GrantKeepsCompacted(s, p, Permit(p, kind, Held, ""));
    case CallPromote(caller, p, sequence, attempt, parent) =>
      GrantPieces(s, caller, p, sequence, Job, attempt, Some(parent));
      GrantKeepsCompacted(s, p, Permit(p, Job, Held, attempt));
    case CallSettle(caller, permitId, proof) =>
      var p, n, marked, next := SettlingPieces(s, caller, permitId, proof);
      SettlesKeepsCompacted(s, permitId, p, n, marked, next);
    case _ =>
      CompactedUnder(s, Decide(e, c).next);
  }

  /** What a write does to the fields that owners share. */
  lemma OwnerFields(e: Envelope, c: Call)
    requires Decide(e, c).Write?
    ensures var s, n := e.state, Decide(e, c).next;
            match c
            case CallClose(owner, _, newEpoch) =>
              && s.phase == Open && n.phase == Closing && n.epoch == newEpoch
              && n.transaction == owner.transaction && owner.transaction !in s.finished
              && n.generation == 1 && n.finished == s.finished && |s.finished| != MAX_FINISHED
            case CallSeal(owner, _) =>
              && s.phase != Open && n == s.(phase := Sealed) && Drained(s)
              && s.transaction == owner.transaction && s.generation == owner.generation
            case CallRecoverOwner(owner, _, _) =>
              && s.phase != Open && n == s.(phase := Closing, generation := s.generation + 1)
              && s.transaction == owner.transaction && s.generation + 1 == owner.generation
            case CallReopen(owner, _, disposition, _) =>
              && s.phase == Sealed && n.phase == Open && n.finished == s.finished + [owner.transaction]
              && s.transaction == owner.transaction && s.generation == owner.generation
              && n.transaction == s.transaction && n.generation == s.generation
            case _ =>
              && n.phase == s.phase && n.epoch == s.epoch && n.transaction == s.transaction
              && n.generation == s.generation && n.finished == s.finished && n.disposition == s.disposition
  {
  }

  /** One durable change: nothing, or the write that the call decided, published whole. */
  ghost predicate Transition(e: Envelope, c: Call, e': Envelope) {
    || e' == e
    || (e.revision < ULONG_MAX && Decide(e, c).Write? && e' == Successor(e, Decide(e, c).next))
  }

  lemma FinishedBound(s: State)
    requires StateValid(s)
    ensures |s.finished| <= MAX_FINISHED
  {
  }

  lemma TransitionKeepsSound(e: Envelope, c: Call, e': Envelope)
    requires Sound(e) && CallWellFormed(c) && FreshFor(e.state, c) && Transition(e, c, e')
    ensures Sound(e')
  {
    hide Compacted, StateValid, Decide, CallWellFormed;
    if e' != e {
      FinishedBound(e.state);
      OwnerFields(e, c);
      WriteIsValidExactly(e, c);
      WriteKeepsCompacted(e, c);
    }
  }

  // ---- runs ----

  /** `records[i]` is the published record before call `i`; equal neighbours mean the call changed nothing. */
  datatype Run = Run(records: seq<Envelope>, calls: seq<Call>)

  ghost predicate Fresh(r: Run, i: nat)
    requires i < |r.calls| < |r.records|
  {
    r.calls[i].CallRegister? ==> forall k :: 0 <= k <= i ==> r.calls[i].newId !in r.records[k].state.participants
  }

  ghost predicate StepAt(r: Run, i: nat)
    requires i < |r.calls| < |r.records|
  {
    CallWellFormed(r.calls[i]) && Fresh(r, i) && Transition(r.records[i], r.calls[i], r.records[i + 1])
  }

  ghost predicate Legal(r: Run) {
    && |r.records| == |r.calls| + 1
    && Guid(r.records[0].state.epoch) && r.records[0] == Initial(r.records[0].state.epoch)
    && forall i :: 0 <= i < |r.calls| ==> StepAt(r, i)
  }

  predicate Took(r: Run, i: nat)
    requires i < |r.calls| < |r.records|
  {
    r.records[i + 1] != r.records[i]
  }

  lemma InitialIsSound(epoch: string)
    requires Guid(epoch)
    ensures Sound(Initial(epoch))
  {
  }

  /** Every record a run publishes is one that `Parse` accepts, so no save is ever refused for its content. */
  lemma {:induction false} ReachableIsSound(r: Run, j: nat)
    requires Legal(r) && j < |r.records|
    ensures Sound(r.records[j])
    decreases j
  {
    hide Sound, Transition;
    if j == 0 {
      InitialIsSound(r.records[0].state.epoch);
    } else {
      ReachableIsSound(r, j - 1);
      assert StepAt(r, j - 1);
      assert Fresh(r, j - 1);
      TransitionKeepsSound(r.records[j - 1], r.calls[j - 1], r.records[j]);
    }
  }

  lemma TookWrites(r: Run, i: nat)
    requires Legal(r) && i < |r.calls| && Took(r, i)
    ensures Decide(r.records[i], r.calls[i]).Write?
    ensures r.records[i + 1] == Successor(r.records[i], Decide(r.records[i], r.calls[i]).next)
  {
    assert StepAt(r, i);
  }

  // ---- once drained, always drained ----

  /** Call `i` returned a drain receipt. */
  ghost predicate SealReturned(r: Run, i: nat)
    requires i < |r.calls| < |r.records|
  {
    r.calls[i].CallSeal? && (Decide(r.records[i], r.calls[i]).Reply? || Took(r, i))
  }

  ghost predicate NoReopenBetween(r: Run, i: nat, j: nat)
    requires j <= |r.calls| < |r.records|
  {
    forall k :: i <= k < j && r.calls[k].CallReopen? ==> !Took(r, k)
  }

  /** Outside the open phase a drained state admits only writes that leave it drained. */
  lemma DrainedStep(e: Envelope, c: Call)
    requires Decide(e, c).Write? && e.state.phase != Open && Drained(e.state) && !c.CallReopen?
    ensures Decide(e, c).next.phase != Open && Drained(Decide(e, c).next)
  {
    var s, n := e.state, Decide(e, c).next;
    OwnerFields(e, c);
    assert forall p :: p in s.participants ==> p !in ActiveMembers(s);
    assert forall k :: k in s.permits ==> k !in HeldPermits(s);
    match c
    case CallEnter(caller, p, sequence, kind) => assert false by { GrantPieces(s, caller, p, sequence, kind, "", None); }
    case CallPromote(caller, p, sequence, attempt, parent) =>
      assert false by { GrantPieces(s, caller, p, sequence, Job, attempt, Some(parent)); }
    case CallSettle(_, _, _) => assert false;
    case CallQuiesce(_, _, _) => assert false;
    case CallRegister(_, _) => assert ActiveMembers(n) == {};
    case CallRetire(_, _, _) => assert ActiveMembers(n) <= ActiveMembers(s);
    case CallSeal(_, _) => assert HeldPermits(n) == HeldPermits(s) && ActiveMembers(n) == ActiveMembers(s);
    case CallRecoverOwner(_, _, _) => assert HeldPermits(n) == HeldPermits(s) && ActiveMembers(n) == ActiveMembers(s);
    case _ =>
  }

  /** After a receipt and until the next reopening, through recoveries and late registrations, nothing is held or active. */
  lemma {:induction false} DrainedUntilReopen(r: Run, i: nat, j: nat)
    requires Legal(r) && i < j <= |r.calls| && SealReturned(r, i) && NoReopenBetween(r, i, j)
    ensures Drained(r.records[j].state) && r.records[j].state.phase != Open
    decreases j
  {
    if j == i + 1 {
      assert StepAt(r, i);
      if Took(r, i) {
        TookWrites(r, i);
        var s, n := r.records[i].state, r.records[j].state;
        assert HeldPermits(n) == HeldPermits(s) && ActiveMembers(n) == ActiveMembers(s);
      }
    } else {
      DrainedUntilReopen(r, i, j - 1);
      if Took(r, j - 1) {
        TookWrites(r, j - 1);
        DrainedStep(r.records[j - 1], r.calls[j - 1]);
      }
    }
  }

  // ---- every participant of a closing is quiesced under its epoch ----

  ghost predicate CloseTook(r: Run, i: nat)
    requires i < |r.calls| < |r.records|
  {
    r.calls[i].CallClose? && Took(r, i)
  }

  /** Call `k` moved `p` to quiesced on evidence bound to `epoch`. */
  ghost predicate QuiescedAt(r: Run, k: nat, p: string, epoch: string)
    requires k < |r.calls| < |r.records|
  {
    && r.calls[k].CallQuiesce? && Took(r, k)
    && r.calls[k].participant == p
    && r.calls[k].proof == Evidence(ParticipantQuiesced, QuiesceBinding(p, epoch))
  }

  ghost predicate QuiescedBetween(r: Run, i: nat, j: nat, p: string, epoch: string)
    requires j <= |r.calls| < |r.records|
  {
    exists k :: i < k < j && QuiescedAt(r, k, p, epoch)
  }

  predicate Works(s: State, p: string) { p in s.participants && s.participants[p].status.Active? }

  lemma NobodyWorksWhenSealed(s: State, p: string)
    requires StateValid(s) && s.phase == Sealed
    ensures !Works(s, p)
  {
    assert p !in ActiveMembers(s);
  }

  lemma CloseActivates(e: Envelope, c: Call)
    requires c.CallClose? && Decide(e, c).Write?
    ensures Decide(e, c).next.phase != Open
    ensures forall p :: p in e.state.participants <==> p in Decide(e, c).next.participants
    ensures forall p :: p in e.state.participants ==> Works(Decide(e, c).next, p)
  {
  }

  /** Outside the open phase only `Quiesce` stops a member from being active. */
  lemma StopsWorkingOnlyByQuiesce(e: Envelope, c: Call, p: string)
    requires Decide(e, c).Write? && e.state.phase != Open && !c.CallReopen?
    requires Works(e.state, p) && FreshFor(e.state, c)
    ensures Decide(e, c).next.phase != Open && Decide(e, c).next.epoch == e.state.epoch
    ensures !Works(Decide(e, c).next, p) ==>
              c.CallQuiesce? && c.participant == p
              && c.proof == Evidence(ParticipantQuiesced, QuiesceBinding(p, e.state.epoch))
  {
    OwnerFields(e, c);
    match c
    case CallEnter(caller, q, sequence, kind) => GrantPieces(e.state, caller, q, sequence, kind, "", None);
    case CallPromote(caller, q, sequence, attempt, parent) =>
      GrantPieces(e.state, caller, q, sequence, Job, attempt, Some(parent));
    case _ =>
  }

  lemma {:induction false} StillWorksOrQuiesced(r: Run, i: nat, j: nat, p: string)
    requires Legal(r) && i < j <= |r.calls| && CloseTook(r, i) && NoReopenBetween(r, i, j)
    requires p in r.records[i].state.participants
    ensures r.records[j].state.phase != Open && r.records[j].state.epoch == r.records[i + 1].state.epoch
    ensures Works(r.records[j].state, p) || QuiescedBetween(r, i, j, p, r.records[i + 1].state.epoch)
    decreases j
  {
    hide Transition, Decide;
    if j == i + 1 {
      TookWrites(r, i);
      CloseActivates(r.records[i], r.calls[i]);
    } else {
      StillWorksOrQuiesced(r, i, j - 1, p);
      var epoch := r.records[i + 1].state.epoch;
      assert StepAt(r, j - 1) && Fresh(r, j - 1);
      if Took(r, j - 1) {
        TookWrites(r, j - 1);
        OwnerFields(r.records[j - 1], r.calls[j - 1]);
        if Works(r.records[j - 1].state, p) {
          StopsWorkingOnlyByQuiesce(r.records[j - 1], r.calls[j - 1], p);
          if !Works(r.records[j].state, p) {
            assert QuiescedAt(r, j - 1, p, epoch);
          }
        }
      }
    }
  }

  /**
   * Whoever was registered when a closing began and has since stopped being active (it was retired,
   * is quiesced, or the record is sealed) was quiesced on evidence for that very closing.
   */
  lemma QuiescedUnderThisClose(r: Run, i: nat, j: nat, p: string)
    requires Legal(r) && i < j <= |r.calls| && CloseTook(r, i) && NoReopenBetween(r, i, j)
    requires p in r.records[i].state.participants
    requires !Works(r.records[j].state, p) || r.records[j].state.phase == Sealed
    ensures QuiescedBetween(r, i, j, p, r.records[i + 1].state.epoch)
  {
    StillWorksOrQuiesced(r, i, j, p);
    if r.records[j].state.phase == Sealed {
      ReachableIsSound(r, j);
      NobodyWorksWhenSealed(r.records[j].state, p);
    }
  }

  // ---- owner fencing ----

  /** The owner a record is currently closing or sealed under. */
  predicate OwnedBy(s: State, o: Owner) {
    s.phase != Open && s.transaction == o.transaction && s.generation == o.generation
  }

  /** Its transaction has finished, or a later generation has taken over. */
  predicate Superseded(s: State, o: Owner) {
    || o.transaction in s.finished
    || (s.phase != Open && s.transaction == o.transaction && o.generation < s.generation)
  }

  lemma OwnerStep(e: Envelope, c: Call, o: Owner)
    requires Decide(e, c).Write?
    ensures Superseded(e.state, o) ==> Superseded(Decide(e, c).next, o)
    ensures OwnedBy(e.state, o) ==> OwnedBy(Decide(e, c).next, o) || Superseded(Decide(e, c).next, o)
  {
    OwnerFields(e, c);
  }

  /** A superseded owner can do nothing: each of its four operations is refused or changes nothing. */
  lemma SupersededIsPowerless(s: State, revision: nat, o: Owner, expected: nat, newEpoch: string, disposition: string, proof: Evidence)
    requires StateValid(s) && OwnerWellFormed(o) && Superseded(s, o)
    ensures !Close(s, revision, o, expected, newEpoch).Write?
    ensures !Seal(s, revision, o, expected).Write?
    ensures !RecoverOwner(s, revision, o, expected, proof).Write?
    ensures !Reopen(s, revision, o, expected, disposition, proof).Write?
  {
    hide MembersValid, PermitsValid, CountsValid, AllActive, Identifier, Guid, Decimal, Drained;
  }

  /** The owner presenting a call, if it is an owner call. */
  function Presenter(c: Call): Option<Owner> {
    match c
    case CallClose(o, _, _) => Some(o)
    case CallSeal(o, _) => Some(o)
    case CallRecoverOwner(o, _, _) => Some(o)
    case CallReopen(o, _, _, _) => Some(o)
    case _ => None
  }

  lemma {:induction false} OwnedOrSuperseded(r: Run, i: nat, j: nat, o: Owner)
    requires Legal(r) && i <= j < |r.records| && (OwnedBy(r.records[i].state, o) || Superseded(r.records[i].state, o))
    ensures OwnedBy(r.records[j].state, o) || Superseded(r.records[j].state, o)
    ensures Superseded(r.records[i].state, o) ==> Superseded(r.records[j].state, o)
    decreases j
  {
    hide Decide, Transition;
    if i < j {
      OwnedOrSuperseded(r, i, j - 1, o);
      if Took(r, j - 1) {
        TookWrites(r, j - 1);
        OwnerStep(r.records[j - 1], r.calls[j - 1], o);
      }
    }
  }

  /** Fencing: once an owner has held the record and no longer holds it, no later call of its changes anything. */
  lemma FormerOwnerIsFenced(r: Run, i: nat, j: nat, k: nat, o: Owner)
    requires Legal(r) && i <= j <= k < |r.calls|
    requires OwnedBy(r.records[i].state, o) && !OwnedBy(r.records[j].state, o)
    requires Presenter(r.calls[k]) == Some(o)
    ensures !Took(r, k)
  {
    OwnedOrSuperseded(r, i, j, o);
    OwnedOrSuperseded(r, j, k, o);
    assert StepAt(r, k);
    if Took(r, k) {
      ReachableIsSound(r, k);
      FencedCall(r.records[k], r.calls[k], o);
    }
  }

  lemma FencedCall(e: Envelope, c: Call, o: Owner)
    requires StateValid(e.state) && CallWellFormed(c) && Presenter(c) == Some(o) && Superseded(e.state, o)
    ensures !Decide(e, c).Write?
  {
    hide StateValid;
    match c
    case CallClose(_, expected, newEpoch) =>
      SupersededIsPowerless(e.state, e.revision, o, expected, newEpoch, "", Evidence(OwnerCessation, ""));
    case CallSeal(_, expected) =>
      SupersededIsPowerless(e.state, e.revision, o, expected, "", "", Evidence(OwnerCessation, ""));
    case CallRecoverOwner(_, expected, proof) =>
      SupersededIsPowerless(e.state, e.revision, o, expected, "", "", proof);
    case CallReopen(_, expected, disposition, proof) =>
      SupersededIsPowerless(e.state, e.revision, o, expected, "", disposition, proof);
  }

  predicate RecoveryTook(r: Run, i: nat)
    requires i < |r.calls| < |r.records|
  {
    r.calls[i].CallRecoverOwner? && Took(r, i)
  }

  /** The owner recoveries taken from `i` up to `j`. */
  function Recoveries(r: Run, i: nat, j: nat): nat
    requires i <= j <= |r.calls| < |r.records|
    decreases j
  {
    if i == j then 0 else Recoveries(r, i, j - 1) + if RecoveryTook(r, j - 1) then 1 else 0
  }

  /** A transaction named by the record is still named, its generation raised once per recovery, or is finished. */
  ghost predicate NamedOrFinished(r: Run, i: nat, j: nat)
    requires i <= j <= |r.calls| < |r.records|
  {
    var s, n := r.records[i].state, r.records[j].state;
    if n.transaction == s.transaction then n.generation == s.generation + Recoveries(r, i, j) else s.transaction in n.finished
  }

  lemma OpenMeansFinished(e: Envelope)
    requires Sound(e) && e.state.phase == Open && e.state.transaction != ""
    ensures e.state.transaction in e.state.finished
  {
  }

  lemma {:induction false} StaysNamedOrFinished(r: Run, i: nat, j: nat)
    requires Legal(r) && i <= j < |r.records| && r.records[i].state.transaction != ""
    ensures NamedOrFinished(r, i, j)
    decreases j
  {
    hide Decide, Transition, Sound;
    if i < j {
      StaysNamedOrFinished(r, i, j - 1);
      ReachableIsSound(r, j - 1);
      if Took(r, j - 1) {
        TookWrites(r, j - 1);
        OwnerFields(r.records[j - 1], r.calls[j - 1]);
        if r.calls[j - 1].CallClose? && r.records[j - 1].state.transaction == r.records[i].state.transaction {
          OpenMeansFinished(r.records[j - 1]);
        }
      }
    }
  }

  /** Over whole runs: as long as a transaction is named, its generation counts exactly the owner recoveries taken. */
  lemma GenerationCountsRecoveries(r: Run, i: nat, j: nat)
    requires Legal(r) && i <= j < |r.records|
    requires r.records[i].state.transaction != "" && r.records[j].state.transaction == r.records[i].state.transaction
    ensures r.records[j].state.generation == r.records[i].state.generation + Recoveries(r, i, j)
  {
    StaysNamedOrFinished(r, i, j);
  }

  /** A close starts its transaction at generation one, so from there the generation is one more than the recoveries. */
  lemma GenerationSinceClose(r: Run, i: nat, j: nat)
    requires Legal(r) && i < |r.calls| && CloseTook(r, i) && i < j < |r.records|
    requires r.records[j].state.transaction == r.calls[i].owner.transaction
    ensures r.records[j].state.generation == 1 + Recoveries(r, i + 1, j)
  {
    hide Decide, Transition;
    assert StepAt(r, i);
    TookWrites(r, i);
    OwnerFields(r.records[i], r.calls[i]);
    StaysNamedOrFinished(r, i + 1, j);
  }

  /** A transaction that has been closed on is either still in charge or finished for good. */
  ghost predicate Begun(s: State, transaction: string) {
    (s.phase != Open && s.transaction == transaction) || transaction in s.finished
  }

  lemma BegunStep(e: Envelope, c: Call, transaction: string)
    requires Decide(e, c).Write? && Begun(e.state, transaction)
    ensures Begun(Decide(e, c).next, transaction)
  {
    OwnerFields(e, c);
  }

  lemma {:induction false} BegunForever(r: Run, i: nat, j: nat, transaction: string)
    requires Legal(r) && i <= j < |r.records| && Begun(r.records[i].state, transaction)
    ensures Begun(r.records[j].state, transaction)
    decreases j
  {
    hide Decide, Transition;
    if i < j {
      BegunForever(r, i, j - 1, transaction);
      if Took(r, j - 1) {
        TookWrites(r, j - 1);
        BegunStep(r.records[j - 1], r.calls[j - 1], transaction);
      }
    }
  }

  /** No transaction is closed on twice in a run. */
  lemma EachTransactionClosesOnce(r: Run, i: nat, j: nat)
    requires Legal(r) && i < j < |r.calls| && CloseTook(r, i) && CloseTook(r, j)
    ensures r.calls[i].owner.transaction != r.calls[j].owner.transaction
  {
    TookWrites(r, i);
    TookWrites(r, j);
    OwnerFields(r.records[i], r.calls[i]);
    OwnerFields(r.records[j], r.calls[j]);
    BegunForever(r, i + 1, j, r.calls[i].owner.transaction);
  }

  ghost predicate ReopenTook(r: Run, i: nat)
    requires i < |r.calls| < |r.records|
  {
    r.calls[i].CallReopen? && Took(r, i)
  }

  ghost function Reopenings(r: Run, j: nat): nat
    requires j <= |r.calls| < |r.records|
  {
    if j == 0 then 0 else Reopenings(r, j - 1) + if ReopenTook(r, j - 1) then 1 else 0
  }

  lemma {:induction false} ReopeningsAreFinished(r: Run, j: nat)
    requires Legal(r) && j <= |r.calls|
    ensures Reopenings(r, j) == |r.records[j].state.finished|
  {
    hide Decide, Transition;
    if j > 0 {
      ReopeningsAreFinished(r, j - 1);
      if Took(r, j - 1) {
        TookWrites(r, j - 1);
        OwnerFields(r.records[j - 1], r.calls[j - 1]);
      }
    }
  }

  /** However long a broker runs, at most 256 transactions ever finish. */
  lemma AtMost256Finish(r: Run)
    requires Legal(r)
    ensures Reopenings(r, |r.calls|) <= 256
  {
    ReopeningsAreFinished(r, |r.calls|);
    ReachableIsSound(r, |r.calls|);
  }
}
