/** The update worker itself: it reads its files, decides, and writes one record at a time. */
module UpdateWorkerCore {
  import opened Common
  import U = UpdateTransactionJournal
  import UpdateTransactionStore
  import opened WorkerJournal

  class Core {
    const owner: U.ProcessOwner
    var journal: Option<Content>
    var journalStage: Option<Content>
    var update: UpdateTransactionStore.Files

    ghost function Contents(): Files
      reads this
    {
      Files(journal, journalStage, update)
    }

    constructor (o: U.ProcessOwner, files: Files)
      ensures owner == o && Contents() == files
    {
      owner := o;
      journal, journalStage, update := files.journal, files.journalStage, files.update;
    }

    /** Moves the stage into place and reads it back. */
    method PublishStage(staged: Journal, disk: Disk) returns (left: Disk, ok: bool)
      requires journalStage == Some(Whole(staged))
      modifies this`journal, this`journalStage
      ensures (Contents(), left, ok) == Publish(old(Contents()), staged, disk)
    {
      if disk.steps == 0 { return disk, false; }
      journal, journalStage := journalStage, None;
      if disk.steps == 1 { return disk.(steps := 0), false; }
      return disk.(steps := disk.steps - 2), true;
    }

    method CommitJournal(next: Journal, disk: Disk) returns (left: Disk, ok: bool)
      modifies this`journal, this`journalStage
      ensures (Contents(), left, ok) == Commit(old(Contents()), next, disk)
    {
      if disk.steps == 0 {
        if disk.torn { journalStage := Some(Unreadable); }
        return disk, false;
      }
      journalStage := Some(Whole(next));
      if disk.steps == 1 { return disk.(steps := 0), false; }
      left, ok := PublishStage(next, disk.(steps := disk.steps - 1));
    }

    method FinishJournal(previous: Journal, disk: Disk) returns (left: Disk, ok: bool)
      modifies this`journal, this`journalStage
      ensures (Contents(), left, ok) == Finish(old(Contents()), previous, owner, disk)
    {
      var terminal := Finished(previous, owner);
      if terminal.generation > ULONG_MAX || terminal.revision > ULONG_MAX { return disk, false; }
      left, ok := CommitJournal(terminal, disk);
    }

    method Request(current: Option<Journal>, gone: set<U.ProcessOwner>, c: Command, newId: string, disk: Disk) returns (r: Reply)
      requires c.Request?
      modifies this`journal, this`journalStage
      ensures (Contents(), r) == Requested(old(Contents()), current, Worker(owner, gone), c, newId, disk)
    {
      if current.Some? && !current.value.Terminal() {
        return HeldReply(current, if current.value.request.requestId == c.id then PreauthPending else TransactionBusy);
      }
      var matching := Matching(current, c.id);
      if matching.Some? {
        if matching.value.releaseId != c.releaseId || matching.value.policyRevision != c.policyRevision {
          return UnverifiedReply(current);
        }
        return ReplyAt(current, Ended(matching.value.transactionId));
      }
      if c.expectedGeneration != Generation(current) || c.expectedRevision != Revision(current) {
        return UnverifiedReply(current);
      }
      if current.Some? && !Worker(owner, gone).MayAdopt(current.value.owner) {
        return HeldReply(current, PreviousOwnerUnverified);
      }
      if current.Some? && |current.value.history| >= HISTORY_LIMIT { return UnverifiedReply(current); }
      var preauth := Preauthorized(current, Worker(owner, gone), c, newId);
      if preauth.generation > ULONG_MAX || preauth.revision > ULONG_MAX { return UnverifiedReply(current); }
      var left, ok := CommitJournal(preauth, disk);
      if !ok { return UnverifiedReply(current); }
      left, ok := FinishJournal(preauth, left);
      if !ok { return UnverifiedReply(current); }
      return ReplyAt(Some(Finished(preauth, owner)), Ended(newId));
    }

    method Execute(c: Command, gone: set<U.ProcessOwner>, newId: string, disk: Disk) returns (r: Reply)
      modifies this`journal, this`journalStage
      ensures (Contents(), r) == Executed(old(Contents()), Worker(owner, gone), c, newId, disk)
    {
      var current: Option<Journal> := None;
      var left := disk;
      if journal.Some? {
        current := Decode(journal.value);
        if current.None? { return UnverifiedReply(None); }
      }
      if c.Capabilities? { return ReplyAt(current, CapabilityList); }
      var held := UpdateGate(update, c.Recover?, current);
      if held.Some? { return held.value; }
      if journalStage.Some? {
        if !c.Recover? { return HeldReply(current, PublicationPending); }
        var staged := Decode(journalStage.value);
        if staged.None? { return UnverifiedReply(current); }
        var verdict := Judge(current, staged.value, Worker(owner, gone));
        if verdict.Unclear? { return UnverifiedReply(current); }
        if verdict.Suspect? { return HeldReply(current, PendingStateUnverified); }
        var ok;
        left, ok := PublishStage(staged.value, disk);
        if !ok { return UnverifiedReply(current); }
        current := staged;
      }
      if current.Some? && !current.value.Known() { return HeldReply(current, UnsupportedPhase); }
      if c.Status? {
        return if current.None? || current.value.Terminal() then ReplyAt(current, Nothing) else HeldReply(current, PreauthPending);
      }
      if c.Recover? {
        if current.None? || current.value.Terminal() { return ReplyAt(current, Nothing); }
        if !Worker(owner, gone).MayAdopt(current.value.owner) { return HeldReply(current, PreviousOwnerUnverified); }
        var ok;
        left, ok := FinishJournal(current.value, left);
        if !ok { return UnverifiedReply(current); }
        return ReplyAt(Some(Finished(current.value, owner)), Recovered(current.value.request.transactionId));
      }
      r := Request(current, gone, c, newId, left);
    }
  }
}
