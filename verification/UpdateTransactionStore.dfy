/** The store of an A/B slot update: four files, written by staging a record and moving it into place. */
module UpdateTransactionStore {
  import opened Common
  import opened UpdateTransactionJournal

  /** A staged file; a crash in the middle of writing it leaves it torn. */
  datatype Stage<+T> = Torn | Whole(record: T)

  datatype Files = Files(transaction: Option<Transaction>, transactionStage: Option<Stage<Transaction>>,
                         selection: Option<Selection>, selectionStage: Option<Stage<Selection>>)

  /** How far one publication gets before the disk fails or the process ends. */
  datatype Disk = Refuses | Tears | StopsAfterStage | StopsAfterPublish | Works

  predicate NoStage(f: Files) { f.transactionStage.None? && f.selectionStage.None? }

  function TransactionDigest(t: Option<Transaction>): Digest {
    if t.Some? then OfTransaction(t.value) else NoDigest
  }

  // ---- publication ----

  function PublishTransaction(f: Files, t: Transaction, disk: Disk): (Files, Result<Transaction, Refusal>) {
    if Validate(t).Some? then (f, Refused(Validate(t).value)) else
    match disk
    case Refuses => (f, Refused(Interrupted))
    case Tears => (f.(transactionStage := Some(Torn)), Refused(Interrupted))
    case StopsAfterStage => (f.(transactionStage := Some(Whole(t))), Refused(Interrupted))
    case StopsAfterPublish => (f.(transaction := Some(t)), Refused(Interrupted))
    case Works => (f.(transaction := Some(t)), Ok(t))
  }

  function PublishSelection(f: Files, s: Selection, disk: Disk): (Files, Result<Selection, Refusal>) {
    if !SelectionValid(s) then (f, Refused(SelectionInvalid)) else
    match disk
    case Refuses => (f, Refused(Interrupted))
    case Tears => (f.(selectionStage := Some(Torn)), Refused(Interrupted))
    case StopsAfterStage => (f.(selectionStage := Some(Whole(s))), Refused(Interrupted))
    case StopsAfterPublish => (f.(selection := Some(s)), Refused(Interrupted))
    case Works => (f.(selection := Some(s)), Ok(s))
  }

  // ---- what a new journal record must satisfy ----

  /** Generations are unsigned 64-bit numbers, so the store's unchecked successor wraps. */
  function NextGeneration(g: nat): nat { (g + 1) % (ULONG_MAX + 1) }

  function SuccessorRefusal(current: Option<Transaction>, selection: Option<Selection>, next: Transaction): Option<Refusal> {
    if next.previous != TransactionDigest(current) then Some(CasConflict)
    else if current.None? then
      if !next.phase.CandidateReady? || next.revision != 1 || selection.None?
         || next.previousSelection != OfSelection(selection.value) || selection.value.generation == ULONG_MAX
         || next.generation != selection.value.generation + 1 || !IsPreviousSelection(next, selection.value)
      then Some(SuccessorInvalid) else None
    else if selection.None? then Some(SelectionMissing)
    else if next.transactionId == current.value.transactionId then
      var expected := Advance(current.value, next.phase, TransactionDigest(current), next.owner);
      if expected.Refused? then Some(expected.reason)
      else if expected.value != next then Some(SuccessorInvalid) else None
    else if !SafeToStart(current.value) || !next.phase.CandidateReady? || next.revision != 1
            || current.value.generation == ULONG_MAX || next.generation != current.value.generation + 1
            || next.previousSelection != OfSelection(selection.value)
            || NextGeneration(selection.value.generation) != next.generation || !IsPreviousSelection(next, selection.value)
    then Some(SuccessorInvalid) else None
  }

  function PhaseRefusal(transaction: Option<Transaction>, selection: Option<Selection>): Option<Refusal> {
    if transaction.None? then None
    else if selection.None? then Some(SelectionMissing)
    else if !PhaseAgrees(transaction.value, selection.value) then Some(SelectionPhaseConflict) else None
  }

  // ---- the operations ----

  function AfterInitialize(f: Files, id: string, s: Selection, disk: Disk): (Files, Option<Refusal>) {
    if s.installationId != id || !s.previous.NoDigest? || f.selection.Some? || f.transaction.Some? || !NoStage(f)
    then (f, Some(EnrollmentConflict))
    else var (f', r) := PublishSelection(f, s, disk); (f', if r.Ok? then None else Some(r.reason))
  }

  function AfterPersist(f: Files, id: string, next: Transaction, expected: Digest, disk: Disk): (Files, Result<Transaction, Refusal>) {
    if next.installationId != id then (f, Refused(IdentityMismatch))
    else if !NoStage(f) then (f, Refused(PublicationPending))
    else if TransactionDigest(f.transaction) != expected then (f, Refused(CasConflict))
    else if SuccessorRefusal(f.transaction, f.selection, next).Some?
    then (f, Refused(SuccessorRefusal(f.transaction, f.selection, next).value))
    else if PhaseRefusal(Some(next), f.selection).Some? then (f, Refused(PhaseRefusal(Some(next), f.selection).value))
    else PublishTransaction(f, next, disk)
  }

  /** The checks both selections start with: the journal on file is the one named, in the phase needed. */
  function SelectRefusal(f: Files, t: Transaction, expectedTransaction: Digest, phase: Phase): Option<Refusal> {
    if f.transactionStage.Some? then Some(TransactionPublicationPending)
    else if f.transaction.None? then Some(TransactionMissing)
    else if OfTransaction(f.transaction.value) != expectedTransaction || f.transaction.value != t || t.phase != phase
    then Some(SelectionPhaseInvalid)
    else if f.selectionStage.Some? then Some(SlotPublicationPending)
    else if f.selection.None? then Some(SelectionMissing)
    else None
  }

  function Published(f: Files, current: Selection, next: Result<Selection, Refusal>, disk: Disk): (Files, Result<Selection, Refusal>) {
    if next.Refused? || next.value == current then (f, next) else PublishSelection(f, next.value, disk)
  }

  function AfterCandidate(f: Files, t: Transaction, expectedTransaction: Digest, expectedSelection: Digest,
                             owner: ProcessOwner, disk: Disk): (Files, Result<Selection, Refusal>) {
    var refusal := SelectRefusal(f, t, expectedTransaction, CandidateSelectionIntent);
    if refusal.Some? then (f, Refused(refusal.value))
    else Published(f, f.selection.value, SelectCandidate(f.selection.value, t, expectedSelection, owner), disk)
  }

  function AfterPrevious(f: Files, t: Transaction, expectedTransaction: Digest, expectedSelection: Digest,
                            owner: ProcessOwner, disk: Disk): (Files, Result<Selection, Refusal>) {
    var refusal := SelectRefusal(f, t, expectedTransaction, PreviousSelectionIntent);
    if refusal.Some? then (f, Refused(refusal.value))
    else Published(f, f.selection.value, SelectPrevious(f.selection.value, t, expectedSelection, owner), disk)
  }

  /** A selection that may have been published without its journal record having advanced. */
  predicate Ambiguous(f: Files) {
    && f.transaction.Some? && f.selection.Some?
    && (|| (f.transaction.value.phase.CandidateSelectionIntent? && IsCandidateSelection(f.transaction.value, f.selection.value))
        || (f.transaction.value.phase.PreviousSelectionIntent? && IsPreviousSelection(f.transaction.value, f.selection.value)))
  }

  class Store {
    const installationId: string
    var transaction: Option<Transaction>
    var transactionStage: Option<Stage<Transaction>>
    var selection: Option<Selection>
    var selectionStage: Option<Stage<Selection>>

    ghost function Contents(): Files
      reads this
    {
      Files(transaction, transactionStage, selection, selectionStage)
    }

    constructor (id: string, files: Files)
      requires DigestText(id)
      ensures installationId == id && Contents() == files
    {
      installationId := id;
      transaction, transactionStage := files.transaction, files.transactionStage;
      selection, selectionStage := files.selection, files.selectionStage;
    }

    /** Stages the record and moves it into place, stopping where the disk stops. */
    method Publish(t: Transaction, disk: Disk) returns (r: Result<Transaction, Refusal>)
      modifies this`transaction, this`transactionStage
      ensures (Contents(), r) == PublishTransaction(old(Contents()), t, disk) || old(transactionStage.Some?)
      ensures old(transactionStage.Some?) ==> Contents() == old(Contents()) && r.Refused?
    {
      var invalid := Validate(t);
      if invalid.Some? { return Refused(invalid.value); }
      if transactionStage.Some? || disk.Refuses? { return Refused(Interrupted); }
      transactionStage := Some(Torn);
      if disk.Tears? { return Refused(Interrupted); }
      transactionStage := Some(Whole(t));
      if disk.StopsAfterStage? { return Refused(Interrupted); }
      transaction, transactionStage := Some(t), None;
      if disk.StopsAfterPublish? { return Refused(Interrupted); }
      return Ok(transaction.value);
    }

    method PublishSlot(s: Selection, disk: Disk) returns (r: Result<Selection, Refusal>)
      modifies this`selection, this`selectionStage
      ensures (Contents(), r) == PublishSelection(old(Contents()), s, disk) || old(selectionStage.Some?)
      ensures old(selectionStage.Some?) ==> Contents() == old(Contents()) && r.Refused?
    {
      if !SelectionValid(s) { return Refused(SelectionInvalid); }
      if selectionStage.Some? || disk.Refuses? { return Refused(Interrupted); }
      selectionStage := Some(Torn);
      if disk.Tears? { return Refused(Interrupted); }
      selectionStage := Some(Whole(s));
      if disk.StopsAfterStage? { return Refused(Interrupted); }
      selection, selectionStage := Some(s), None;
      if disk.StopsAfterPublish? { return Refused(Interrupted); }
      return Ok(selection.value);
    }

    method InitializeSelection(s: Selection, disk: Disk) returns (refusal: Option<Refusal>)
      modifies this
      ensures (Contents(), refusal) == AfterInitialize(old(Contents()), installationId, s, disk)
    {
      if s.installationId != installationId || !s.previous.NoDigest? || selection.Some? || selectionStage.Some?
         || transaction.Some? || transactionStage.Some?
      {
        return Some(EnrollmentConflict);
      }
      var r := PublishSlot(s, disk);
      refusal := if r.Ok? then None else Some(r.reason);
    }

    method PersistTransaction(next: Transaction, expected: Digest, disk: Disk) returns (r: Result<Transaction, Refusal>)
      modifies this
      ensures (Contents(), r) == AfterPersist(old(Contents()), installationId, next, expected, disk)
    {
      if next.installationId != installationId { return Refused(IdentityMismatch); }
      if transactionStage.Some? || selectionStage.Some? { return Refused(PublicationPending); }
      if TransactionDigest(transaction) != expected { return Refused(CasConflict); }
      var refusal := SuccessorRefusal(transaction, selection, next);
      if refusal.Some? { return Refused(refusal.value); }
      refusal := PhaseRefusal(Some(next), selection);
      if refusal.Some? { return Refused(refusal.value); }
      r := Publish(next, disk);
    }

    method SelectCandidateSlot(t: Transaction, expectedTransaction: Digest, expectedSelection: Digest,
                               owner: ProcessOwner, disk: Disk)
      returns (r: Result<Selection, Refusal>)
      modifies this
      ensures (Contents(), r) == AfterCandidate(old(Contents()), t, expectedTransaction, expectedSelection, owner, disk)
    {
      var refusal := SelectRefusal(Files(transaction, transactionStage, selection, selectionStage), t, expectedTransaction,
                                   CandidateSelectionIntent);
      if refusal.Some? { return Refused(refusal.value); }
      r := SelectCandidate(selection.value, t, expectedSelection, owner);
      if r.Ok? && r.value != selection.value {
        r := PublishSlot(r.value, disk);
      }
    }

    method SelectPreviousSlot(t: Transaction, expectedTransaction: Digest, expectedSelection: Digest,
                              owner: ProcessOwner, disk: Disk)
      returns (r: Result<Selection, Refusal>)
      modifies this
      ensures (Contents(), r) == AfterPrevious(old(Contents()), t, expectedTransaction, expectedSelection, owner, disk)
    {
      var refusal := SelectRefusal(Files(transaction, transactionStage, selection, selectionStage), t, expectedTransaction,
                                   PreviousSelectionIntent);
      if refusal.Some? { return Refused(refusal.value); }
      r := SelectPrevious(selection.value, t, expectedSelection, owner);
      if r.Ok? && r.value != selection.value {
        r := PublishSlot(r.value, disk);
      }
    }

    /**
     * Looks at what earlier publications left behind. It writes nothing, completes no stage, and hands
     * out the published pair exactly when no stage is left, the pair is not ambiguous and it agrees.
     */
    method RecoverPublications() returns (r: Result<(Option<Transaction>, Option<Selection>), Refusal>)
      ensures r.Ok? <==> NoStage(Contents()) && !Ambiguous(Contents()) && PhaseRefusal(transaction, selection).None?
      ensures r.Ok? ==> r.value == (transaction, selection)
    {
      if transactionStage.Some? {
        if transactionStage.value.Torn? { return Refused(TransactionInvalid); }
        var staged := transactionStage.value.record;
        var refusal := SuccessorRefusal(transaction, selection, staged);
        if refusal.Some? { return Refused(refusal.value); }
        refusal := PhaseRefusal(Some(staged), selection);
        if refusal.Some? { return Refused(refusal.value); }
        return Refused(TransactionPublicationUnverified);
      }
      if selectionStage.Some? {
        if transaction.None? { return Refused(TransactionMissing); }
        if selectionStage.value.Torn? { return Refused(SelectionInvalid); }
        return Refused(SlotPublicationUnverified);
      }
      if Ambiguous(Files(transaction, transactionStage, selection, selectionStage)) {
        return Refused(SlotPublicationUnverified);
      }
      var refusal := PhaseRefusal(transaction, selection);
      if refusal.Some? { return Refused(refusal.value); }
      return Ok((transaction, selection));
    }
  }
}
