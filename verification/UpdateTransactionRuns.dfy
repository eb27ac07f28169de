/** Whole runs of the update store: any calls with any arguments, publications failing at any point. */
module UpdateTransactionRuns {
  import opened Common
  import AdmissionProtocol
  import opened UpdateTransactionJournal
  import opened UpdateTransactionStore

  datatype Event =
    | Initialize(selection: Selection, disk: Disk)
    | Persist(next: Transaction, expected: Digest, disk: Disk)
    | ChooseCandidate(transaction: Transaction, expectedTransaction: Digest, expectedSelection: Digest, owner: ProcessOwner, disk: Disk)
    | ChoosePrevious(transaction: Transaction, expectedTransaction: Digest, expectedSelection: Digest, owner: ProcessOwner, disk: Disk)

  function Next(f: Files, id: string, ev: Event): Files {
    match ev
    case Initialize(s, disk) => AfterInitialize(f, id, s, disk).0
    case Persist(next, expected, disk) => AfterPersist(f, id, next, expected, disk).0
    case ChooseCandidate(t, et, es, owner, disk) => AfterCandidate(f, t, et, es, owner, disk).0
    case ChoosePrevious(t, et, es, owner, disk) => AfterPrevious(f, t, et, es, owner, disk).0
  }

  // ---- the invariant ----

  /** The selection the transaction was created over. */
  predicate Begun(t: Transaction) {
    && t.previousSelection.OfSelection?
    && var p := t.previousSelection.selection;
       p.installationId == t.installationId && p.generation + 1 == t.generation && OnPreviousSlot(t, p)
  }

  predicate Untouched(t: Transaction, s: Selection) { t.previousSelection == OfSelection(s) }

  predicate Trial(t: Transaction, s: Selection) {
    IsCandidateSelection(t, s) && s.revision == 1 && s.previous == t.previousSelection
  }

  predicate Restored(t: Transaction, s: Selection) {
    && s.installationId == t.installationId && s.generation == t.generation && s.transactionId == t.transactionId
    && s.revision == 2 && OnPreviousSlot(t, s) && s.previous.OfSelection? && Trial(t, s.previous.selection)
  }

  /** Phases that only evidence could reach. */
  predicate NeedsEvidence(p: Phase) { p.HealthVerified? || p.CommitIntent? || p.Committed? || p.RollbackVerified? }

  predicate Linked(t: Transaction, s: Selection) {
    && Begun(t) && (Untouched(t, s) || Trial(t, s) || Restored(t, s)) && PhaseAgrees(t, s)
    && (Restored(t, s) ==> RollingBack(t.phase) || t.phase.RollbackUnverified?)
  }

  predicate Sound(f: Files) {
    && (f.selection.Some? ==> SelectionValid(f.selection.value))
    && (f.transaction.Some? ==>
          && f.selection.Some? && Validate(f.transaction.value).None?
          && f.transaction.value.revision <= Ordinal(f.transaction.value.phase)
          && (Ordinal(f.transaction.value.phase) <= 9 ==> f.transaction.value.revision == Ordinal(f.transaction.value.phase))
          && !NeedsEvidence(f.transaction.value.phase)
          && Linked(f.transaction.value, f.selection.value))
  }

  /** What a transaction never changes as it advances. */
  predicate SameTransaction(a: Transaction, b: Transaction) {
    b == a.(revision := b.revision, previous := b.previous, owner := b.owner, phase := b.phase)
  }

  /** Once started, a transaction stays on file and only moves forward; the selection it began over stays named. */
  predicate Onward(a: Files, b: Files) {
    && (a.selection.Some? ==> b.selection.Some?)
    && (a.transaction.Some? ==>
          && b.transaction.Some? && SameTransaction(a.transaction.value, b.transaction.value)
          && (b.transaction == a.transaction || Ordinal(a.transaction.value.phase) < Ordinal(b.transaction.value.phase)))
    && (a.transaction.None? && a.selection.Some? ==>
          if b.transaction.None? then b.selection == a.selection
          else b.transaction.value.previousSelection == OfSelection(a.selection.value))
  }

  lemma FirstPersistKeeps(f: Files, id: string, next: Transaction, expected: Digest)
    requires Sound(f) && f.transaction.None? && AfterPersist(f, id, next, expected, Works).1.Ok?
    ensures f.selection.Some? && Linked(next, f.selection.value) && Validate(next).None?
    ensures next.revision <= Ordinal(next.phase) && !NeedsEvidence(next.phase) && next.previousSelection == OfSelection(f.selection.value)
    ensures next.revision == Ordinal(next.phase)
  {
    hide FieldsValid, SelectionValid;
  }

  lemma LaterPersistKeeps(f: Files, id: string, next: Transaction, expected: Digest)
    requires Sound(f) && f.transaction.Some? && AfterPersist(f, id, next, expected, Works).1.Ok?
    ensures Linked(next, f.selection.value) && Validate(next).None?
    ensures next.revision <= Ordinal(next.phase) && !NeedsEvidence(next.phase)
    ensures Ordinal(next.phase) <= 9 ==> next.revision == Ordinal(next.phase)
    ensures SameTransaction(f.transaction.value, next) && Ordinal(f.transaction.value.phase) < Ordinal(next.phase)
  {
    hide FieldsValid, SelectionValid, ValidPrevious, OwnerValid;
    AdvanceClimbs(f.transaction.value.phase, next.phase);
  }

  lemma PersistKeeps(f: Files, id: string, next: Transaction, expected: Digest, disk: Disk)
    requires Sound(f)
    ensures var f' := AfterPersist(f, id, next, expected, disk).0; Sound(f') && Onward(f, f')
  {
    hide FieldsValid, SelectionValid, Linked, SuccessorRefusal, PhaseRefusal, Ordinal;
    if AfterPersist(f, id, next, expected, Works).1.Ok? {
      if f.transaction.None? { FirstPersistKeeps(f, id, next, expected); } else { LaterPersistKeeps(f, id, next, expected); }
    }
  }

  lemma CandidateKeeps(f: Files, t: Transaction, et: Digest, es: Digest, owner: ProcessOwner, disk: Disk)
    requires Sound(f)
    ensures var f' := AfterCandidate(f, t, et, es, owner, disk).0; Sound(f') && Onward(f, f')
  {
    hide FieldsValid, SelectionValid;
  }

  lemma PreviousKeeps(f: Files, t: Transaction, et: Digest, es: Digest, owner: ProcessOwner, disk: Disk)
    requires Sound(f)
    ensures var f' := AfterPrevious(f, t, et, es, owner, disk).0; Sound(f') && Onward(f, f')
  {
    hide FieldsValid, SelectionValid;
  }

  lemma NextKeeps(f: Files, id: string, ev: Event)
    requires Sound(f)
    ensures Sound(Next(f, id, ev)) && Onward(f, Next(f, id, ev))
  {
    hide FieldsValid, SelectionValid, Linked, AfterPersist, AfterCandidate, AfterPrevious;
    match ev
    case Initialize(_, _) =>
    case Persist(next, expected, disk) => PersistKeeps(f, id, next, expected, disk);
    case ChooseCandidate(t, et, es, owner, disk) => CandidateKeeps(f, t, et, es, owner, disk);
    case ChoosePrevious(t, et, es, owner, disk) => PreviousKeeps(f, t, et, es, owner, disk);
  }

  // ---- runs ----

  datatype Run = Run(id: string, files: seq<Files>, events: seq<Event>)

  ghost predicate Legal(r: Run) {
    && |r.files| == |r.events| + 1
    && r.files[0] == Files.Files(None, None, None, None)
    && forall i :: 0 <= i < |r.events| ==> r.files[i + 1] == Next(r.files[i], r.id, r.events[i])
  }

  lemma {:induction false} ReachableIsSound(r: Run, j: nat)
    requires Legal(r) && j < |r.files|
    ensures Sound(r.files[j])
  {
    hide Next, Linked, Validate;
    if j > 0 {
      ReachableIsSound(r, j - 1);
      NextKeeps(r.files[j - 1], r.id, r.events[j - 1]);
    }
  }

  /** The selection operations never look, yet journal phase and active slot agree in every reachable state. */
  lemma PhaseAndSlotAgree(r: Run, j: nat)
    requires Legal(r) && j < |r.files| && r.files[j].transaction.Some?
    ensures r.files[j].selection.Some? && PhaseAgrees(r.files[j].transaction.value, r.files[j].selection.value)
  {
    hide Next;
    ReachableIsSound(r, j);
  }

  /** No run commits, or verifies a rollback, without the evidence the journal asks for. */
  lemma NothingCommitsWithoutEvidence(r: Run, j: nat)
    requires Legal(r) && j < |r.files| && r.files[j].transaction.Some?
    ensures !NeedsEvidence(r.files[j].transaction.value.phase) && !SafeToStart(r.files[j].transaction.value)
  {
    hide Next;
    ReachableIsSound(r, j);
  }

  lemma OnwardTransitive(a: Files, b: Files, c: Files)
    requires Onward(a, b) && Onward(b, c)
    ensures Onward(a, c)
  {
    hide Ordinal;
  }

  lemma {:induction false} RunsGoOnward(r: Run, i: nat, j: nat)
    requires Legal(r) && i <= j < |r.files|
    ensures Onward(r.files[i], r.files[j])
    decreases j
  {
    hide Next, Sound;
    if i < j {
      RunsGoOnward(r, i, j - 1);
      ReachableIsSound(r, j - 1);
      NextKeeps(r.files[j - 1], r.id, r.events[j - 1]);
      hide Onward;
      OnwardTransitive(r.files[i], r.files[j - 1], r.files[j]);
    }
  }

  /** A store carries one transaction for ever: its identity, prior slot and candidate never change, its phase only climbs. */
  lemma OneTransactionPerStore(r: Run, i: nat, j: nat)
    requires Legal(r) && i <= j < |r.files| && r.files[i].transaction.Some?
    ensures r.files[j].transaction.Some?
    ensures SameTransaction(r.files[i].transaction.value, r.files[j].transaction.value)
    ensures Ordinal(r.files[i].transaction.value.phase) <= Ordinal(r.files[j].transaction.value.phase)
    ensures r.files[j].transaction.value.revision <= 17
  {
    hide Next, Linked, Validate;
    RunsGoOnward(r, i, j);
    ReachableIsSound(r, j);
  }

  // ---- a stage left behind ----

  lemma StageBlocks(f: Files, id: string, ev: Event)
    requires !NoStage(f)
    ensures Next(f, id, ev) == f
  {
    hide SuccessorRefusal, PhaseRefusal, SelectCandidate, SelectPrevious;
  }

  /** A stage left behind by a crash is never removed, and nothing on file changes ever again. */
  lemma {:induction false} StageHoldsTheStore(r: Run, i: nat, j: nat)
    requires Legal(r) && i <= j < |r.files| && !NoStage(r.files[i])
    ensures r.files[j] == r.files[i]
    decreases j
  {
    hide Next;
    if i < j {
      StageHoldsTheStore(r, i, j - 1);
      StageBlocks(r.files[j - 1], r.id, r.events[j - 1]);
    }
  }

  const HEX := Repeat('a', 64)
  const GUID := Repeat('a', 8) + "-" + Repeat('a', 4) + "-" + Repeat('a', 4) + "-" + Repeat('a', 4) + "-" + Repeat('a', 12)
  const FIRST_SELECTION := Selection(HEX, 1, 1, NoDigest, ProcessOwner(1, "1", "C:\\w"), GUID, A, HEX, DataGeneration(GUID, HEX))

  lemma GuidIsCanonical()
    ensures CanonicalGuid(GUID) && GUID != EMPTY_GUID
  {
    hide Repeat;
    var a8, a4, a12 := Repeat('a', 8), Repeat('a', 4), Repeat('a', 12);
    assert GUID == a8 + "-" + a4 + "-" + a4 + "-" + a4 + "-" + a12;
    assert forall i :: 0 <= i < 36 ==> GUID[i] == if i in {8, 13, 18, 23} then '-' else 'a';
    assert GUID[0] == 'a' && EMPTY_GUID[0] == '0';
  }

  lemma FirstSelectionIsValid()
    ensures SelectionValid(FIRST_SELECTION)
  {
    hide Repeat;
    GuidIsCanonical();
    assert AdmissionProtocol.Value("1") == 1 by { assert "1"[..0] == ""; }
  }

  /** Such a stage does get left: the very first publication may stop after staging. */
  lemma StageCanBeLeft() returns (r: Run)
    ensures Legal(r) && |r.events| == 1 && !NoStage(r.files[1]) && r.files[1].selection.None?
  {
    hide SelectionValid;
    FirstSelectionIsValid();
    var empty := Files.Files(None, None, None, None);
    var left := empty.(selectionStage := Some(Whole(FIRST_SELECTION)));
    r := Run(HEX, [empty, left], [Initialize(FIRST_SELECTION, StopsAfterStage)]);
  }

  /** So a store can be held for ever: from there no run, whatever is called, ever publishes a selection. */
  lemma HeldForEver(r: Run, j: nat)
    requires Legal(r) && 1 <= j < |r.files| && r.events[0] == Initialize(FIRST_SELECTION, StopsAfterStage) && r.id == HEX
    ensures r.files[j] == Files.Files(None, None, None, Some(Whole(FIRST_SELECTION)))
  {
    FirstSelectionIsValid();
    StageHoldsTheStore(r, 1, j);
  }

  // ---- rolling back ----

  function Advanced(t: Transaction, p: Phase, owner: ProcessOwner): Transaction {
    t.(revision := t.revision + 1, previous := OfTransaction(t), owner := owner, phase := p)
  }

  function Write(t: Transaction, p: Phase, owner: ProcessOwner): Event {
    Persist(Advanced(t, p, owner), OfTransaction(t), Works)
  }

  function Select(t: Transaction, s: Selection, owner: ProcessOwner): Event {
    ChoosePrevious(t, OfTransaction(t), OfSelection(s), owner, Works)
  }

  /** The steps from any state back to the slot the transaction began over. */
  function RollbackPlan(f: Files, owner: ProcessOwner): seq<Event>
    requires f.transaction.Some? && f.selection.Some?
  {
    var t, s := f.transaction.value, f.selection.value;
    if OnPreviousSlot(t, s) then []
    else if t.phase.PreviousSelectionIntent? then [Select(t, s, owner)]
    else if t.phase.RollbackIntent? then
      [Write(t, PreviousSelectionIntent, owner), Select(Advanced(t, PreviousSelectionIntent, owner), s, owner)]
    else
      var t1 := Advanced(t, RollbackIntent, owner);
      [Write(t, RollbackIntent, owner), Write(t1, PreviousSelectionIntent, owner),
       Select(Advanced(t1, PreviousSelectionIntent, owner), s, owner)]
  }

  function After(f: Files, id: string, events: seq<Event>): Files
    decreases |events|
  {
    if events == [] then f else After(Next(f, id, events[0]), id, events[1..])
  }

  /** The prior slot, slot digest and data generation are active. */
  predicate PriorActive(f: Files) {
    f.transaction.Some? && f.selection.Some? && OnPreviousSlot(f.transaction.value, f.selection.value)
  }

  /** A store whose candidate is active, before or during the way back. */
  predicate OnTrial(f: Files, id: string) {
    && Sound(f) && NoStage(f) && f.transaction.Some? && f.transaction.value.installationId == id
    && !OnPreviousSlot(f.transaction.value, f.selection.value)
  }

  lemma WriteStep(f: Files, id: string, p: Phase, owner: ProcessOwner)
    requires OnTrial(f, id) && OwnerValid(owner) && p in {RollbackIntent, PreviousSelectionIntent}
    requires CanAdvance(f.transaction.value.phase, p)
    ensures var t := Advanced(f.transaction.value, p, owner);
            Next(f, id, Write(f.transaction.value, p, owner)) == f.(transaction := Some(t)) && OnTrial(f.(transaction := Some(t)), id)
  {
    hide OwnerValid, SelectionValid, DataValid, ReleaseValid, DigestText, CanonicalGuid;
    AdvanceClimbs(f.transaction.value.phase, p);
  }

  lemma SelectStep(f: Files, id: string, owner: ProcessOwner)
    requires OnTrial(f, id) && OwnerValid(owner) && f.transaction.value.phase.PreviousSelectionIntent?
    ensures PriorActive(Next(f, id, Select(f.transaction.value, f.selection.value, owner)))
  {
    hide OwnerValid, DataValid, ReleaseValid, CanonicalGuid;
  }

  lemma AfterTwo(f: Files, id: string, a: Event, b: Event)
    ensures After(f, id, [a, b]) == Next(Next(f, id, a), id, b)
  {
    hide Next;
    assert [a, b][1..] == [b] && [b][1..] == [];
    assert After(Next(f, id, a), id, [b]) == After(Next(Next(f, id, a), id, b), id, []);
  }

  lemma AfterThree(f: Files, id: string, a: Event, b: Event, c: Event)
    ensures After(f, id, [a, b, c]) == Next(Next(Next(f, id, a), id, b), id, c)
  {
    hide Next;
    assert [a, b, c][1..] == [b, c];
    AfterTwo(Next(f, id, a), id, b, c);
  }

  lemma TrialRollsBack(f: Files, id: string, owner: ProcessOwner)
    requires OnTrial(f, id) && OwnerValid(owner)
    ensures PriorActive(After(f, id, RollbackPlan(f, owner)))
  {
    hide OnTrial, Next, OwnerValid, PriorActive, OnPreviousSlot;
    TrialPhases(f, id);
    var t := f.transaction.value;
    if t.phase.PreviousSelectionIntent? {
      SelectStep(f, id, owner);
    } else if t.phase.RollbackIntent? {
      WriteStep(f, id, PreviousSelectionIntent, owner);
      var f1 := Next(f, id, Write(t, PreviousSelectionIntent, owner));
      SelectStep(f1, id, owner);
      AfterTwo(f, id, Write(t, PreviousSelectionIntent, owner), Select(f1.transaction.value, f1.selection.value, owner));
    } else {
      WriteStep(f, id, RollbackIntent, owner);
      var f1 := Next(f, id, Write(t, RollbackIntent, owner));
      var t1 := f1.transaction.value;
      WriteStep(f1, id, PreviousSelectionIntent, owner);
      var f2 := Next(f1, id, Write(t1, PreviousSelectionIntent, owner));
      SelectStep(f2, id, owner);
      AfterThree(f, id, Write(t, RollbackIntent, owner), Write(t1, PreviousSelectionIntent, owner),
                 Select(f2.transaction.value, f2.selection.value, owner));
    }
  }

  lemma TrialPhases(f: Files, id: string)
    requires OnTrial(f, id)
    ensures f.selection.Some? && f.transaction.Some? && !OnPreviousSlot(f.transaction.value, f.selection.value)
    ensures var p := f.transaction.value.phase;
            p.PreviousSelectionIntent? || (p.RollbackIntent? && CanAdvance(p, PreviousSelectionIntent)) || CanAdvance(p, RollbackIntent)
  {
    hide Validate, SelectionValid;
  }

  lemma {:induction false} InstallationIsFixed(r: Run, j: nat)
    requires Legal(r) && j < |r.files| && r.files[j].transaction.Some?
    ensures r.files[j].transaction.value.installationId == r.id
  {
    hide Sound, SuccessorRefusal, PhaseRefusal, Validate, SelectionValid, SelectCandidate, SelectPrevious;
    if j > 0 && r.files[j - 1].transaction.Some? {
      InstallationIsFixed(r, j - 1);
    }
  }

  /**
   * From every reachable state with a transaction and no stage left behind, at most three steps make the
   * prior slot, slot digest and data generation active, and they are those of the selection the store
   * held before the transaction began.
   */
  lemma RollbackRestoresThePriorSlot(r: Run, i: nat, j: nat, owner: ProcessOwner)
    requires Legal(r) && i < j < |r.files| && OwnerValid(owner)
    requires r.files[i].transaction.None? && r.files[i].selection.Some?
    requires r.files[j].transaction.Some? && NoStage(r.files[j])
    ensures r.files[j].selection.Some? && |RollbackPlan(r.files[j], owner)| <= 3
    ensures var prior, s := r.files[i].selection.value, After(r.files[j], r.id, RollbackPlan(r.files[j], owner)).selection;
            s.Some? && s.value.slot == prior.slot && s.value.slotDigest == prior.slotDigest && s.value.data == prior.data
  {
    hide Next, Validate, OwnerValid, SelectionValid, PhaseAgrees;
    ReachableIsSound(r, j);
    RunsGoOnward(r, i, j);
    InstallationIsFixed(r, j);
    var f := r.files[j];
    if OnPreviousSlot(f.transaction.value, f.selection.value) {
    } else {
      TrialRollsBack(f, r.id, owner);
      PlanKeepsPrior(f, r.id, owner);
    }
  }

  /** The plan never changes which slot the transaction began over. */
  lemma PlanKeepsPrior(f: Files, id: string, owner: ProcessOwner)
    requires OnTrial(f, id) && OwnerValid(owner)
    ensures var f' := After(f, id, RollbackPlan(f, owner));
            f'.transaction.Some? && SameTransaction(f.transaction.value, f'.transaction.value)
  {
    hide Next, OwnerValid, OnPreviousSlot, Linked, Validate, SelectionValid;
    TrialPhases(f, id);
    AfterOnward(f, id, RollbackPlan(f, owner));
  }

  lemma {:induction false} AfterOnward(f: Files, id: string, events: seq<Event>)
    requires Sound(f)
    ensures Sound(After(f, id, events)) && Onward(f, After(f, id, events))
    decreases |events|
  {
    hide Next, Sound;
    if events == [] {
    } else {
      NextKeeps(f, id, events[0]);
      AfterOnward(Next(f, id, events[0]), id, events[1..]);
      hide Onward;
      OnwardTransitive(f, Next(f, id, events[0]), After(f, id, events));
    }
  }

  // ---- starting and looking ----

  /** A transaction created over the published selection is one the store accepts as its first. */
  lemma CreatedIsAccepted(f: Files, id: string, owner: ProcessOwner, release: Release, digest: string, data: DataGeneration, transactionId: string)
    requires Sound(f) && NoStage(f) && f.transaction.None? && f.selection.Some? && f.selection.value.installationId == id
    ensures var made := Create(f.selection.value, NoDigest, owner, release, digest, data, transactionId);
            made.Ok? ==> AfterPersist(f, id, made.value, NoDigest, Works) == (f.(transaction := Some(made.value)), made)
  {
    hide FieldsValid, SelectionValid;
  }

  /** In a reachable state with no stage, agreement needs no check: looking is refused only when the pair is ambiguous. */
  lemma ReachablePairAgrees(r: Run, j: nat)
    requires Legal(r) && j < |r.files|
    ensures PhaseRefusal(r.files[j].transaction, r.files[j].selection).None?
  {
    hide Next;
    ReachableIsSound(r, j);
  }

  /** In the selection phase the candidate can be made active, again if need be, and the journal then moves on. */
  lemma CandidateBecomesActive(f: Files, id: string, owner: ProcessOwner)
    requires Sound(f) && NoStage(f) && f.transaction.Some? && f.transaction.value.installationId == id
    requires f.transaction.value.phase.CandidateSelectionIntent? && OwnerValid(owner)
    ensures var t, s := f.transaction.value, f.selection.value;
            var f1 := Next(f, id, ChooseCandidate(t, OfTransaction(t), OfSelection(s), owner, Works));
            && f1.selection.Some? && Trial(t, f1.selection.value) && f1.transaction == f.transaction
            && Next(f1, id, Write(t, UpdateTransactionJournal.CandidateSelected, owner)).transaction
               == Some(Advanced(t, UpdateTransactionJournal.CandidateSelected, owner))
  {
    hide OwnerValid, DataValid, ReleaseValid, CanonicalGuid, DigestText;
    var t, s := f.transaction.value, f.selection.value;
    var f1 := Next(f, id, ChooseCandidate(t, OfTransaction(t), OfSelection(s), owner, Works));
    assert Trial(t, f1.selection.value);
  }
}
