/** What the update worker answers, and when: stated by what is on record and who asks. */
module WorkerAnswers {
  import opened Common
  import AdmissionProtocol
  import U = UpdateTransactionJournal
  import UpdateTransactionStore
  import opened WorkerJournal
  import opened WorkerRuns

  /** Nothing stands in the way of a command: no slot update, no stage, no request in hand. */
  predicate Ready(f: Files) { UpdateQuiet(f.update) && f.journalStage.None? && Settled(JournalOf(f)) }

  /** The request id is on record, with whatever release. */
  predicate IdOnRecord(f: Files, id: string) {
    exists i :: 0 <= i < |ReceiptsOf(JournalOf(f))| && ReceiptsOf(JournalOf(f))[i].requestId == id
  }

  /** The caller named the position the record is at: zero and zero when there is none. */
  predicate NamesPosition(f: Files, c: Command)
    requires c.Request?
  {
    match JournalOf(f)
    case None => c.expectedGeneration == 0 && c.expectedRevision == 0
    case Some(j) => c.expectedGeneration == j.generation && c.expectedRevision == j.revision
  }

  /** The record is this process's own, or its owner is gone; none is anyone's. */
  predicate MayTake(j: Option<Journal>, w: Worker) {
    match j
    case None => true
    case Some(journal) => journal.owner == w.owner || journal.owner in w.gone
  }

  predicate HasRoom(f: Files) {
    match JournalOf(f)
    case None => true
    case Some(j) => |j.history| < 64
  }

  lemma FirstIsOnRecord(rs: seq<Receipt>, id: string)
    ensures First(rs, id).None? <==> forall i :: 0 <= i < |rs| ==> rs[i].requestId != id
  {
  }

  lemma MatchingIsOnRecord(f: Files, id: string)
    ensures Matching(JournalOf(f), id).Some? <==> IdOnRecord(f, id)
    ensures Matching(JournalOf(f), id).Some? ==> Matching(JournalOf(f), id).value in ReceiptsOf(JournalOf(f))
  {
    hide JournalOf;
    var j := JournalOf(f);
    if j.Some? {
      var rs := j.value.Receipts();
      assert rs[|j.value.history|] == j.value.request;
      FirstIsOnRecord(j.value.history, id);
      forall i | 0 <= i < |j.value.history|
        ensures rs[i] == j.value.history[i]
      {
      }
      var found := First(j.value.history, id);
      if found.Some? {
        var i :| 0 <= i < |j.value.history| && j.value.history[i] == found.value;
        assert rs[i] == found.value;
      }
      assert rs == ReceiptsOf(j);
      if IdOnRecord(f, id) {
        var i :| 0 <= i < |rs| && rs[i].requestId == id;
        assert i == |j.value.history| || j.value.history[i].requestId == id;
      }
    }
  }

  /**
   * A new request is taken in hand and ended, with a receipt of exactly what was asked, if and only if the
   * caller named the position on record, the record may be taken over and there is room; else nothing changes.
   */
  lemma NewRequestAnswer(f: Files, w: Worker, c: Command, newId: string, d: Disk)
    requires Sound(f) && Environment(w, c, newId) && c.Request? && Ready(f) && !IdOnRecord(f, c.id) && d.steps >= 6
    ensures var (f', reply) := Executed(f, w, c, newId, d);
            var taken := NamesPosition(f, c) && MayTake(JournalOf(f), w) && HasRoom(f);
            && (reply.outcome == Ended(newId) <==> taken)
            && (taken ==> ReceiptsOf(JournalOf(f')) == ReceiptsOf(JournalOf(f)) + [Receipt(c.id, c.releaseId, c.policyRevision, newId)]
                          && Ready(f') && JournalOf(f').value.owner == w.owner
                          && JournalOf(f').value.generation == c.expectedGeneration + 1 && JournalOf(f').value.revision == c.expectedRevision + 2)
            && (!taken ==> f' == f && reply.outcome.Held?)
  {
    hide ReceiptValid, U.OwnerValid, U.CanonicalGuid, UpdateQuiet, UpdateGate, CommandValid, JournalValid, Requested, Matching;
    SoundDecodes(f);
    GateOpensExactlyWhenQuiet(f.update, c.Recover?, JournalOf(f));
    NewRequested(f, w, c, newId, d);
  }

  lemma NewRequested(f: Files, w: Worker, c: Command, newId: string, d: Disk)
    requires Sound(f) && Environment(w, c, newId) && c.Request? && Ready(f) && !IdOnRecord(f, c.id) && d.steps >= 6
    ensures var (f', reply) := Requested(f, JournalOf(f), w, c, newId, d);
            var taken := NamesPosition(f, c) && MayTake(JournalOf(f), w) && HasRoom(f);
            && (reply.outcome == Ended(newId) <==> taken)
            && (taken ==> ReceiptsOf(JournalOf(f')) == ReceiptsOf(JournalOf(f)) + [Receipt(c.id, c.releaseId, c.policyRevision, newId)]
                          && Ready(f') && JournalOf(f').value.owner == w.owner
                          && JournalOf(f').value.generation == c.expectedGeneration + 1 && JournalOf(f').value.revision == c.expectedRevision + 2)
            && (!taken ==> f' == f && reply.outcome.Held?)
  {
    MatchingIsOnRecord(f, c.id);
    var j := JournalOf(f);
    BoundedRecord(f);
    hide JournalValid, U.OwnerValid, CommandValid, U.CanonicalGuid, Matching, Commit, Finish, Succeeds, UpdateQuiet, JournalOf, IdOnRecord;
    if MayTake(j, w) && HasRoom(f) && NamesPosition(f, c) {
      var preauth := Preauthorized(j, w, c, newId);
      PreauthorizedIsSound(j, w, c, newId);
      CommitKeeps(f, preauth, d);
      CommitWorks(f, preauth, d);
      var (f1, d1, ok) := Commit(f, preauth, d);
      FinishKeeps(f1, preauth, w.owner, d1);
      assert Finished(preauth, w.owner).Receipts() == preauth.Receipts();
    }
  }

  lemma CommitWorks(f: Files, j: Journal, d: Disk)
    requires d.steps >= 3
    ensures Commit(f, j, d).2 && Commit(f, j, d).1.steps == d.steps - 3
  {
  }

  /** Positions stay far below the 64-bit limit. */
  lemma BoundedRecord(f: Files)
    requires Sound(f)
    ensures JournalOf(f).Some? ==>
              JournalSound(JournalOf(f).value) && JournalOf(f).value.revision <= 130 && JournalOf(f).value.generation <= 130
  {
    hide ReceiptValid, DistinctRequests, U.OwnerValid, U.CanonicalGuid;
  }

  /** An id on record is answered from it when release and policy agree, and refused otherwise; nothing changes. */
  lemma RepeatAnswer(f: Files, w: Worker, c: Command, newId: string, d: Disk, receipt: Receipt)
    requires Sound(f) && Environment(w, c, newId) && c.Request? && Ready(f)
    requires receipt in ReceiptsOf(JournalOf(f)) && receipt.requestId == c.id
    ensures var (f', reply) := Executed(f, w, c, newId, d);
            && f' == f
            && (reply.outcome.Ended? <==> receipt.releaseId == c.releaseId && receipt.policyRevision == c.policyRevision)
            && (reply.outcome.Ended? ==> reply.outcome.transactionId == receipt.transactionId)
  {
    hide ReceiptValid, U.OwnerValid, U.CanonicalGuid, UpdateQuiet, UpdateGate, CommandValid;
    GateOpensExactlyWhenQuiet(f.update, c.Recover?, JournalOf(f));
    MatchingFinds(JournalOf(f).value, receipt);
  }

  /** While a request is in hand every other is told so, its own repeat that it is pending; nothing changes. */
  lemma BusyAnswer(f: Files, w: Worker, c: Command, newId: string, d: Disk)
    requires Sound(f) && Environment(w, c, newId) && c.Request? && UpdateQuiet(f.update) && f.journalStage.None? && !Settled(JournalOf(f))
    ensures var (f', reply) := Executed(f, w, c, newId, d);
            var hand := JournalOf(f).value.request;
            f' == f && reply.outcome == Held(if hand.requestId == c.id then PreauthPending else TransactionBusy, Some(hand.transactionId))
  {
    hide ReceiptValid, U.OwnerValid, U.CanonicalGuid, UpdateQuiet, UpdateGate, CommandValid;
    GateOpensExactlyWhenQuiet(f.update, c.Recover?, JournalOf(f));
  }

  /** Looking changes nothing, and says safe exactly when nothing stands in the way. */
  lemma StatusAnswer(f: Files, w: Worker, id: string, newId: string, d: Disk)
    requires Sound(f) && Environment(w, Status(id), newId)
    ensures var (f', reply) := Executed(f, w, Status(id), newId, d);
            f' == f && (reply.SafeToStart() <==> Ready(f)) && (Ready(f) ==> reply.outcome == Nothing)
  {
    hide ReceiptValid, U.OwnerValid, U.CanonicalGuid, UpdateQuiet, UpdateGate, CommandValid, DistinctRequests;
    GateIsNeverSafe(f.update, false, JournalOf(f));
    GateOpensExactlyWhenQuiet(f.update, false, JournalOf(f));
  }

  /** Recovery ends the request in hand as its own, keeping the request and the transaction it was given. */
  lemma RecoveryEndsTheRequest(f: Files, w: Worker, id: string, newId: string, d: Disk)
    requires Sound(f) && Environment(w, Recover(id), newId) && d.steps >= 3
    requires UpdateQuiet(f.update) && f.journalStage.None? && !Settled(JournalOf(f))
    ensures var (f', reply) := Executed(f, w, Recover(id), newId, d);
            var hand := JournalOf(f).value.request;
            && (reply.outcome == Recovered(hand.transactionId) <==> MayTake(JournalOf(f), w))
            && (MayTake(JournalOf(f), w) ==>
                  && Ready(f') && ReceiptsOf(JournalOf(f')) == ReceiptsOf(JournalOf(f)) && JournalOf(f').value.owner == w.owner
                  && JournalOf(f').value.generation
                     == JournalOf(f).value.generation + if JournalOf(f).value.owner == w.owner then 0 else 1)
            && (!MayTake(JournalOf(f), w) ==> f' == f)
  {
    SoundDecodes(f);
    hide ReceiptValid, U.OwnerValid, U.CanonicalGuid, UpdateQuiet, UpdateGate, CommandValid, JournalValid, Finish, JournalSound;
    GateOpensExactlyWhenQuiet(f.update, true, JournalOf(f));
    SoundInHand(f);
    FinishKeeps(f, JournalOf(f).value, w.owner, d);
    assert Finished(JournalOf(f).value, w.owner).Receipts() == JournalOf(f).value.Receipts();
  }

  lemma SoundInHand(f: Files)
    requires Sound(f) && !Settled(JournalOf(f))
    ensures JournalOf(f).value.phase.Preauth?
  {
    hide JournalValid;
  }

  /** Asking for capabilities tells the position and changes nothing, whatever stands in the way. */
  lemma CapabilitiesAnswer(f: Files, w: Worker, id: string, newId: string, d: Disk)
    requires Sound(f)
    ensures var j := JournalOf(f);
            Executed(f, w, Capabilities(id), newId, d)
            == (f, Reply(Some(if j.Some? then (j.value.generation, j.value.revision) else (0, 0)), CapabilityList))
  {
    SoundDecodes(f);
    hide JournalValid;
  }

  /**
   * While a slot update is on file nothing is done for anyone: a leftover stage is told as pending, or left
   * unverified when recovery was asked; a proper transaction is told as pending, any other left unverified.
   */
  lemma UpdateInTheWayAnswer(f: Files, w: Worker, c: Command, newId: string, d: Disk)
    requires Sound(f) && !c.Capabilities? && !UpdateQuiet(f.update)
    ensures var (f', reply) := Executed(f, w, c, newId, d);
            var staged := f.update.transactionStage.Some? || f.update.selectionStage.Some?;
            && f' == f && reply.outcome.Held?
            && reply.outcome.reason ==
                 if staged then (if c.Recover? then Unverified else UpdatePublicationPending)
                 else if U.Validate(f.update.transaction.value).None? then UpdatePending else Unverified
  {
    SoundDecodes(f);
    hide JournalValid, JournalSound, U.FieldsValid, U.SelectionValid;
  }

  /** A stage is only for recovery: any other command is told that a publication is pending; nothing changes. */
  lemma StageInTheWayAnswer(f: Files, w: Worker, c: Command, newId: string, d: Disk)
    requires Sound(f) && !c.Capabilities? && !c.Recover? && UpdateQuiet(f.update) && f.journalStage.Some?
    ensures var (f', reply) := Executed(f, w, c, newId, d);
            f' == f && reply.outcome.Held? && reply.outcome.reason == PublicationPending
  {
    SoundDecodes(f);
    hide JournalValid, JournalSound, UpdateQuiet, UpdateGate;
    GateOpensExactlyWhenQuiet(f.update, false, JournalOf(f));
  }
}
