/** The path of a slot update, written out: which phases follow which, what each run went through, what is accepted. */
module UpdateTransactionPath {
  import opened Common
  import opened UpdateTransactionJournal
  import opened UpdateTransactionStore
  import opened UpdateTransactionRuns

  /** The place of a phase on the way forward, as far as a run can go without evidence; 0 off that way. */
  function ForwardPlace(p: Phase): nat {
    match p
    case CandidateReady => 1
    case QuiesceIntent => 2
    case Quiesced => 3
    case TunnelStopIntent => 4
    case TunnelStopped => 5
    case CandidateSelectionIntent => 6
    case CandidateSelected => 7
    case CandidateLaunchIntent => 8
    case TrialStarted => 9
    case _ => 0
  }

  /** The place of a phase on the way back; 0 off that way. */
  function BackPlace(p: Phase): nat {
    match p
    case RollbackIntent => 1
    case PreviousSelectionIntent => 2
    case PreviousSelected => 3
    case PreviousLaunchIntent => 4
    case PreviousStarted => 5
    case _ => 0
  }

  /** Step by step along either way; from anywhere forward onto the way back; from the way back to unverified. */
  predicate Follows(a: Phase, b: Phase) {
    || (ForwardPlace(a) > 0 && ForwardPlace(b) == ForwardPlace(a) + 1)
    || (BackPlace(a) > 0 && BackPlace(b) == BackPlace(a) + 1)
    || (ForwardPlace(a) > 0 && b == RollbackIntent)
    || (BackPlace(a) > 0 && b == RollbackUnverified)
  }

  /** Which slot is active in which phase. */
  predicate SlotFits(t: Transaction, s: Selection) {
    var ahead, back := ForwardPlace(t.phase), BackPlace(t.phase);
    && (1 <= ahead <= 5 || 3 <= back || t.phase == RollbackUnverified ==> OnPreviousSlot(t, s))
    && (7 <= ahead ==> OnCandidateSlot(t, s))
    && (ahead == 6 || 1 <= back <= 2 ==> OnPreviousSlot(t, s) || OnCandidateSlot(t, s))
  }

  /** Away from the phases that need evidence, an advance is allowed exactly along the two ways. */
  lemma AdvanceFollowsTheWays(a: Phase, b: Phase)
    requires !NeedsEvidence(a) && !NeedsEvidence(b)
    ensures CanAdvance(a, b) <==> Follows(a, b)
  {
  }

  // ---- what runs went through ----

  lemma PlaceIsOrdinal(p: Phase)
    ensures ForwardPlace(p) > 0 <==> Ordinal(p) <= 9
    ensures ForwardPlace(p) > 0 ==> ForwardPlace(p) == Ordinal(p)
  {
  }

  /** On the way forward the revision is the place of the phase, one to nine, so no phase was ever skipped. */
  lemma RevisionIsThePlace(r: Run, j: nat)
    requires Legal(r) && j < |r.files| && OnTheWay(r.files[j])
    ensures r.files[j].transaction.value.revision == ForwardPlace(r.files[j].transaction.value.phase)
  {
    ReachableIsSound(r, j);
    PlaceIsOrdinal(r.files[j].transaction.value.phase);
    hide Next, Validate, Linked, Ordinal, ForwardPlace;
  }

  /** The journal on file stands somewhere on the way forward. */
  predicate OnTheWay(f: Files) { f.transaction.Some? && ForwardPlace(f.transaction.value.phase) > 0 }

  /** The journal on file stands at this place of the way forward. */
  predicate StandsAt(f: Files, place: nat) { f.transaction.Some? && ForwardPlace(f.transaction.value.phase) == place }

  lemma PreviousPhase(r: Run, j: nat)
    requires Legal(r) && 0 < j < |r.files| && OnTheWay(r.files[j]) && r.files[j].transaction != r.files[j - 1].transaction
    ensures var t := r.files[j].transaction.value;
            if t.revision == 1 then r.files[j - 1].transaction.None?
            else OnTheWay(r.files[j - 1]) && r.files[j - 1].transaction.value.revision == t.revision - 1
  {
    hide Next, Sound, AfterPersist, Ordinal, ForwardPlace;
    var f, ev := r.files[j - 1], r.events[j - 1];
    ReachableIsSound(r, j - 1);
    ReachableIsSound(r, j);
    OnlyPersistMovesTheJournal(f, r.id, ev);
    PersistedStep(f, r.id, ev.next, ev.expected, ev.disk);
    PlaceIsOrdinal(r.files[j].transaction.value.phase);
    if f.transaction.Some? { PlaceIsOrdinal(f.transaction.value.phase); }
  }

  lemma OnlyPersistMovesTheJournal(f: Files, id: string, ev: Event)
    ensures Next(f, id, ev).transaction != f.transaction ==>
              ev.Persist? && Next(f, id, ev) == AfterPersist(f, id, ev.next, ev.expected, ev.disk).0
  {
    hide SuccessorRefusal, PhaseRefusal, SelectCandidate, SelectPrevious, Validate, SelectionValid;
  }

  lemma PersistedStep(f: Files, id: string, next: Transaction, expected: Digest, disk: Disk)
    requires Sound(f) && AfterPersist(f, id, next, expected, disk).0.transaction != f.transaction
    ensures AfterPersist(f, id, next, expected, disk).0.transaction == Some(next)
    ensures f.transaction.None? <==> next.revision == 1
    ensures f.transaction.Some? ==>
              next.revision == f.transaction.value.revision + 1 && Ordinal(f.transaction.value.phase) < Ordinal(next.phase)
  {
    hide ReleaseValid, DataValid, DigestText, CanonicalGuid, SelectionValid, Linked, PhaseRefusal, Ordinal, ValidPrevious, OwnerValid, IsPreviousSelection;
    PersistKeeps(f, id, next, expected, disk);
  }

  /** Strictly later, one after the other, none after `j`. */
  predicate InOrderUpTo(moments: seq<nat>, j: nat) {
    (forall k :: 0 <= k < |moments| ==> moments[k] <= j) && forall k, l :: 0 <= k < l < |moments| ==> moments[k] < moments[l]
  }

  /**
   * A run on the way forward had every earlier phase on file before, in order: one moment for each place up
   * to its own.
   */
  lemma {:induction false} WentThroughEveryPhase(r: Run, j: nat) returns (moments: seq<nat>)
    requires Legal(r) && j < |r.files| && OnTheWay(r.files[j])
    ensures |moments| == ForwardPlace(r.files[j].transaction.value.phase) && InOrderUpTo(moments, j)
    ensures forall k :: 0 <= k < |moments| ==> moments[k] < |r.files| && StandsAt(r.files[moments[k]], k + 1)
    decreases j
  {
    hide Next, ForwardPlace;
    RevisionIsThePlace(r, j);
    var t := r.files[j].transaction.value;
    if r.files[j - 1].transaction == r.files[j].transaction {
      moments := WentThroughEveryPhase(r, j - 1);
    } else {
      PreviousPhase(r, j);
      if t.revision == 1 {
        moments := [j];
      } else {
        RevisionIsThePlace(r, j - 1);
        var before := WentThroughEveryPhase(r, j - 1);
        moments := before + [j];
      }
    }
  }

  /** The candidate was selected at a moment when the journal said it was about to be. */
  lemma {:induction false} TrialWasIntended(r: Run, j: nat) returns (i: nat)
    requires Legal(r) && j < |r.files| && r.files[j].transaction.Some? && r.files[j].selection.Some?
    requires OnCandidateSlot(r.files[j].transaction.value, r.files[j].selection.value)
    ensures i <= j && StandsAt(r.files[i], 6)
    decreases j
  {
    hide Next, Validate, SelectionValid, Ordinal, PhaseAgrees;
    var f := r.files[j - 1];
    ReachableIsSound(r, j - 1);
    if f.transaction.Some? && OnCandidateSlot(f.transaction.value, f.selection.value) {
      i := TrialWasIntended(r, j - 1);
    } else {
      BecomesCandidate(f, r.id, r.events[j - 1]);
      i := j - 1;
    }
  }

  lemma BecomesCandidate(f: Files, id: string, ev: Event)
    requires Sound(f) && (f.transaction.None? || !OnCandidateSlot(f.transaction.value, f.selection.value))
    requires var f' := Next(f, id, ev); f'.transaction.Some? && f'.selection.Some? && OnCandidateSlot(f'.transaction.value, f'.selection.value)
    ensures StandsAt(f, 6)
  {
    hide FieldsValid, SelectionValid, PhaseAgrees, CanAdvance;
    match ev
    case Persist(next, expected, disk) => CreatedOnPrevious(f, id, next, expected, disk);
    case _ =>
  }

  lemma CreatedOnPrevious(f: Files, id: string, next: Transaction, expected: Digest, disk: Disk)
    requires Sound(f) && (f.transaction.None? || !OnCandidateSlot(f.transaction.value, f.selection.value))
    ensures var f' := AfterPersist(f, id, next, expected, disk).0;
            f'.transaction.Some? && f'.selection.Some? ==> !OnCandidateSlot(f'.transaction.value, f'.selection.value)
  {
    hide SelectionValid, PhaseAgrees, CanAdvance, DigestText, CanonicalGuid, OwnerValid, ReleaseValid, DataValid;
  }

  /**
   * Whenever the candidate is active, quiescing and the tunnel's stop were intended and done before, in this
   * order, and only then its selection was intended.
   */
  lemma CandidateOnlyAfterQuiescing(r: Run, j: nat) returns (moments: seq<nat>)
    requires Legal(r) && j < |r.files| && r.files[j].transaction.Some? && r.files[j].selection.Some?
    requires OnCandidateSlot(r.files[j].transaction.value, r.files[j].selection.value)
    ensures |moments| == 6 && InOrderUpTo(moments, j)
    ensures forall k :: 0 <= k < 6 ==> moments[k] < |r.files| && StandsAt(r.files[moments[k]], k + 1)
  {
    hide Next, ForwardPlace;
    var i := TrialWasIntended(r, j);
    moments := WentThroughEveryPhase(r, i);
  }

  /** Phase and slot, spelled out, in every reachable state. */
  lemma SlotFitsThePhase(r: Run, j: nat)
    requires Legal(r) && j < |r.files| && r.files[j].transaction.Some?
    ensures r.files[j].selection.Some? && SlotFits(r.files[j].transaction.value, r.files[j].selection.value)
  {
    hide Next;
    ReachableIsSound(r, j);
  }

  // ---- what is accepted ----

  /** The next record of the transaction on file. */
  predicate Succeeds(t: Transaction, next: Transaction) {
    next == t.(revision := t.revision + 1, previous := OfTransaction(t), owner := next.owner, phase := next.phase)
  }

  /**
   * With no stage and a working disk, a record after the one on file is accepted exactly when it is the next
   * revision of that one, naming it, by a proper owner, along the ways, with the slot its phase needs.
   */
  lemma PersistsExactly(f: Files, id: string, next: Transaction, expected: Digest)
    requires Sound(f) && NoStage(f) && f.transaction.Some? && f.transaction.value.installationId == id
    ensures var t, s := f.transaction.value, f.selection.value;
            var after := AfterPersist(f, id, next, expected, Works);
            var accepted := expected == OfTransaction(t) && Succeeds(t, next) && OwnerValid(next.owner) && Follows(t.phase, next.phase) && SlotFits(next, s);
            && (after.1.Ok? <==> accepted)
            && after.0 == if accepted then f.(transaction := Some(next)) else f
  {
    var t := f.transaction.value;
    hide AfterPersist, Follows, SlotFits, PhaseAgrees, CanAdvance, OwnerValid, FieldsValid, SelectionValid, Linked, Ordinal;
    PersistsByTable(f, id, next, expected);
    if NeedsEvidence(next.phase) {
      NoWayToEvidence(t.phase, next.phase);
    } else {
      NoEvidenceRequired(next.phase);
      AdvanceFollowsTheWays(t.phase, next.phase);
      if Succeeds(t, next) { FitsIsAgreeing(f, next); }
    }
  }

  lemma NoEvidenceRequired(p: Phase)
    requires !NeedsEvidence(p)
    ensures EvidenceRequired(p).None?
  {
  }

  lemma NoWayToEvidence(a: Phase, b: Phase)
    requires NeedsEvidence(b) && !NeedsEvidence(a)
    ensures !Follows(a, b) && (EvidenceRequired(b).Some? || !CanAdvance(a, b))
  {
  }

  lemma FitsIsAgreeing(f: Files, next: Transaction)
    requires Sound(f) && f.transaction.Some? && Succeeds(f.transaction.value, next) && !NeedsEvidence(next.phase)
    ensures PhaseAgrees(next, f.selection.value) <==> SlotFits(next, f.selection.value)
  {
    hide OwnerValid, DataValid, ReleaseValid, CanonicalGuid, DigestText, SelectionValid;
  }

  lemma PersistsByTable(f: Files, id: string, next: Transaction, expected: Digest)
    requires Sound(f) && NoStage(f) && f.transaction.Some? && f.transaction.value.installationId == id
    ensures var t, s := f.transaction.value, f.selection.value;
            var after := AfterPersist(f, id, next, expected, Works);
            var accepted := expected == OfTransaction(t) && Succeeds(t, next) && OwnerValid(next.owner) && CanAdvance(t.phase, next.phase)
                            && EvidenceRequired(next.phase).None? && PhaseAgrees(next, s);
            && (after.1.Ok? <==> accepted)
            && after.0 == if accepted then f.(transaction := Some(next)) else f
  {
    hide OwnerValid, DataValid, ReleaseValid, CanonicalGuid, DigestText, SelectionValid, PhaseAgrees, CanAdvance, Begun, Untouched, Trial, Restored;
  }

  /** From each place of the way forward the next phase is accepted, given the slot it needs. */
  lemma NextPhaseIsAccepted(f: Files, id: string, owner: ProcessOwner, phase: Phase)
    requires Sound(f) && NoStage(f) && OnTheWay(f) && f.transaction.value.installationId == id && OwnerValid(owner)
    requires ForwardPlace(phase) == ForwardPlace(f.transaction.value.phase) + 1
    requires if ForwardPlace(phase) <= 6 then OnPreviousSlot(f.transaction.value, f.selection.value)
             else OnCandidateSlot(f.transaction.value, f.selection.value)
    ensures var next := Advanced(f.transaction.value, phase, owner);
            AfterPersist(f, id, next, OfTransaction(f.transaction.value), Works) == (f.(transaction := Some(next)), Ok(next))
  {
    var t := f.transaction.value;
    var next := Advanced(t, phase, owner);
    AheadIsNotBack(phase);
    hide AfterPersist, Sound, OwnerValid, ForwardPlace, BackPlace, OnPreviousSlot, OnCandidateSlot;
    SameSlots(t, next, f.selection.value);
    PersistsExactly(f, id, next, OfTransaction(t));
    AcceptedIsPublished(f, id, next);
  }

  lemma AheadIsNotBack(p: Phase)
    ensures ForwardPlace(p) > 0 ==> BackPlace(p) == 0 && p != RollbackUnverified && ForwardPlace(p) <= 9
  {
  }

  lemma SameSlots(t: Transaction, next: Transaction, s: Selection)
    requires next.previousSlot == t.previousSlot && next.previousSlotDigest == t.previousSlotDigest && next.previousData == t.previousData
    requires next.candidateSlot == t.candidateSlot && next.candidateSlotDigest == t.candidateSlotDigest && next.candidateData == t.candidateData
    ensures OnPreviousSlot(next, s) <==> OnPreviousSlot(t, s)
    ensures OnCandidateSlot(next, s) <==> OnCandidateSlot(t, s)
  {
  }

  lemma AcceptedIsPublished(f: Files, id: string, next: Transaction)
    ensures var after := AfterPersist(f, id, next, TransactionDigest(f.transaction), Works);
            after.1.Ok? ==> after.1.value == next
  {
    hide SuccessorRefusal, PhaseRefusal, Validate;
  }

  // ---- selecting and enrolling ----

  /** Only the record on file, named by its digest, in the phase that intends it, moves a slot, and only from the slot named. */
  lemma CandidateSelectsExactly(f: Files, t: Transaction, et: Digest, es: Digest, owner: ProcessOwner)
    requires Sound(f) && NoStage(f) && f.transaction.Some? && OwnerValid(owner)
    ensures var s, f' := f.selection.value, AfterCandidate(f, t, et, es, owner, Works).0;
            var moves := f.transaction == Some(t) && et == OfTransaction(t) && t.phase == CandidateSelectionIntent
                         && es == OfSelection(s) && OnPreviousSlot(t, s);
            && (f'.selection != f.selection <==> moves)
            && f' == f.(selection := f'.selection)
            && (moves ==> f'.selection.Some? && OnCandidateSlot(t, f'.selection.value) && f'.selection.value.owner == owner
                          && f'.selection.value.transactionId == t.transactionId && f'.selection.value.previous == es)
  {
    hide OwnerValid, DataValid, ReleaseValid, CanonicalGuid, DigestText;
  }

  lemma PreviousSelectsExactly(f: Files, t: Transaction, et: Digest, es: Digest, owner: ProcessOwner)
    requires Sound(f) && NoStage(f) && f.transaction.Some? && OwnerValid(owner)
    ensures var s, f' := f.selection.value, AfterPrevious(f, t, et, es, owner, Works).0;
            var moves := f.transaction == Some(t) && et == OfTransaction(t) && t.phase == PreviousSelectionIntent
                         && es == OfSelection(s) && OnCandidateSlot(t, s);
            && (f'.selection != f.selection <==> moves)
            && f' == f.(selection := f'.selection)
            && (moves ==> f'.selection.Some? && OnPreviousSlot(t, f'.selection.value) && f'.selection.value.owner == owner
                          && f'.selection.value.transactionId == t.transactionId && f'.selection.value.previous == es)
  {
    hide OwnerValid, DataValid, ReleaseValid, CanonicalGuid;
  }

  /** A first selection is taken exactly into an empty store of its installation. */
  lemma EnrollsExactly(f: Files, id: string, s: Selection)
    ensures var f' := AfterInitialize(f, id, s, Works).0;
            var taken := f == Files.Files(None, None, None, None) && s.installationId == id && s.previous == NoDigest && SelectionValid(s);
            (AfterInitialize(f, id, s, Works).1.None? <==> taken) && f' == if taken then f.(selection := Some(s)) else f
  {
    hide SelectionValid;
  }

  /** A first record is taken exactly over the selection on file: its next generation, at revision one, on its slot. */
  lemma StartsExactly(f: Files, id: string, next: Transaction)
    requires Sound(f) && NoStage(f) && f.transaction.None? && Validate(next).None?
    ensures AfterPersist(f, id, next, NoDigest, Works).1.Ok? <==>
              && f.selection.Some? && next.installationId == id && f.selection.value.installationId == id
              && next.previous == NoDigest && next.phase == CandidateReady && next.revision == 1
              && next.previousSelection == OfSelection(f.selection.value)
              && next.generation == f.selection.value.generation + 1 && OnPreviousSlot(next, f.selection.value)
  {
    hide OwnerValid, DataValid, ReleaseValid, CanonicalGuid, DigestText;
  }

  /** A pair is ambiguous exactly when an intended selection is already the active one. */
  lemma AmbiguousExactly(f: Files)
    requires Sound(f) && f.transaction.Some?
    ensures var t, s := f.transaction.value, f.selection.value;
            Ambiguous(f) <==> (t.phase == CandidateSelectionIntent && OnCandidateSlot(t, s))
                              || (t.phase == PreviousSelectionIntent && OnPreviousSlot(t, s))
  {
    hide OwnerValid, DataValid, ReleaseValid, CanonicalGuid, DigestText, SelectionValid;
  }
}
