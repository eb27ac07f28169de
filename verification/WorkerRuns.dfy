/** Whole runs of the update worker: any commands from any owner, the process ending at any disk operation. */
module WorkerRuns {
  import opened Common
  import AdmissionProtocol
  import U = UpdateTransactionJournal
  import UpdateTransactionStore
  import opened WorkerJournal

  function JournalOf(f: Files): Option<Journal> { if f.journal.Some? then Decode(f.journal.value) else None }

  function ReceiptsOf(j: Option<Journal>): seq<Receipt> { if j.Some? then j.value.Receipts() else [] }

  /** Two records for each request: one when it is taken in hand, one when it ends. */
  predicate JournalSound(j: Journal) {
    && JournalValid(j) && j.Known()
    && j.revision == 2 * |j.history| + (if j.Terminal() then 2 else 1)
    && |j.history| < j.generation <= j.revision
  }

  /** The only records the worker ever writes after a given one. */
  predicate Succeeds(j: Option<Journal>, s: Journal) {
    && s.previous == DigestOf(j) && s.revision == Revision(j) + 1 && Generation(j) <= s.generation <= Generation(j) + 1
    && (if s.Terminal()
        then j.Some? && j.value.phase.Preauth? && s.request == j.value.request && s.history == j.value.history
        else (j.None? || j.value.Terminal()) && s.history == ReceiptsOf(j) && s.generation == Generation(j) + 1)
  }

  predicate Sound(f: Files) {
    && (f.journal.Some? ==> f.journal.value.Whole? && JournalSound(f.journal.value.journal))
    && (f.journalStage.Some? && f.journalStage.value.Whole? ==>
          JournalSound(f.journalStage.value.journal) && Succeeds(JournalOf(f), f.journalStage.value.journal))
  }

  /** Receipts are only ever added at the end. */
  predicate Onward(a: Files, b: Files) {
    ReceiptsOf(JournalOf(a)) <= ReceiptsOf(JournalOf(b)) && Revision(JournalOf(a)) <= Revision(JournalOf(b))
  }

  predicate CommandValid(c: Command) {
    AdmissionProtocol.Identifier(c.id)
    && (c.Request? ==> AdmissionProtocol.Identifier(c.releaseId) && c.policyRevision >= 1)
  }

  predicate Environment(w: Worker, c: Command, newId: string) {
    U.OwnerValid(w.owner) && U.CanonicalGuid(newId) && CommandValid(c)
  }

  lemma SoundDecodes(f: Files)
    requires Sound(f)
    ensures JournalOf(f) == if f.journal.Some? then Some(f.journal.value.journal) else None
  {
    hide JournalValid;
  }

  // ---- writes ----

  lemma PublishKeeps(f: Files, d: Disk)
    requires Sound(f) && f.journalStage.Some? && f.journalStage.value.Whole?
    ensures var (f', d', ok) := Publish(f, f.journalStage.value.journal, d);
            && Sound(f') && Onward(f, f') && f'.update == f.update
            && (ok ==> f' == f.(journal := f.journalStage, journalStage := None))
            && (ok ==> JournalOf(f') == Some(f.journalStage.value.journal))
  {
    hide JournalValid, AdmissionProtocol.Identifier;
    SoundDecodes(f);
  }

  lemma CommitKeeps(f: Files, s: Journal, d: Disk)
    requires Sound(f) && f.journalStage.None? && JournalSound(s) && Succeeds(JournalOf(f), s)
    ensures var (f', d', ok) := Commit(f, s, d);
            && Sound(f') && Onward(f, f') && f'.update == f.update
            && (ok ==> f' == f.(journal := Some(Whole(s)))) && (ok ==> JournalOf(f') == Some(s))
  {
    hide JournalValid, JournalSound, Succeeds, Publish;
    if d.steps > 1 {
      PublishKeeps(f.(journalStage := Some(Whole(s))), d.(steps := d.steps - 1));
    }
  }

  lemma FinishedIsSound(j: Journal, owner: U.ProcessOwner)
    requires JournalSound(j) && j.phase.Preauth? && U.OwnerValid(owner)
    ensures JournalSound(Finished(j, owner)) && Succeeds(Some(j), Finished(j, owner))
  {
    hide ReceiptValid, U.OwnerValid, DistinctRequests;
    assert Finished(j, owner).Receipts() == j.Receipts();
  }

  lemma FinishKeeps(f: Files, j: Journal, owner: U.ProcessOwner, d: Disk)
    requires Sound(f) && f.journalStage.None? && JournalOf(f) == Some(j) && j.phase.Preauth? && U.OwnerValid(owner)
    ensures var (f', d', ok) := Finish(f, j, owner, d);
            && Sound(f') && Onward(f, f') && f'.update == f.update
            && (ok ==> f' == f.(journal := Some(Whole(Finished(j, owner))))) && (ok ==> JournalOf(f') == Some(Finished(j, owner)))
            && (d.steps >= 3 ==> ok)
  {
    hide ReceiptValid, DistinctRequests, U.OwnerValid, U.CanonicalGuid;
    FinishedIsSound(j, owner);
    CommitKeeps(f, Finished(j, owner), d);
  }

  lemma PreauthorizedIsSound(j: Option<Journal>, w: Worker, c: Command, newId: string)
    requires j.Some? ==> JournalSound(j.value) && j.value.Terminal() && |j.value.history| < HISTORY_LIMIT
    requires Environment(w, c, newId) && c.Request? && Matching(j, c.id).None?
    ensures JournalSound(Preauthorized(j, w, c, newId)) && Succeeds(j, Preauthorized(j, w, c, newId))
  {
    hide U.OwnerValid, AdmissionProtocol.Identifier, U.CanonicalGuid;
    var p := Preauthorized(j, w, c, newId);
    forall i | 0 <= i < |p.Receipts()|
      ensures ReceiptValid(p.Receipts()[i])
    {
      if i < |ReceiptsOf(j)| { assert p.Receipts()[i] == j.value.Receipts()[i]; }
    }
    forall i | 0 <= i < |ReceiptsOf(j)|
      ensures ReceiptsOf(j)[i].requestId != c.id
    {
      if i < |j.value.history| { assert ReceiptsOf(j)[i] == j.value.history[i]; }
    }
  }

  lemma RequestKeeps(f: Files, w: Worker, c: Command, newId: string, d: Disk)
    requires Sound(f) && f.journalStage.None? && Environment(w, c, newId) && c.Request?
    ensures var f' := Requested(f, JournalOf(f), w, c, newId, d).0; Sound(f') && Onward(f, f') && f'.update == f.update
  {
    hide JournalValid, U.OwnerValid, CommandValid, U.CanonicalGuid, Matching, Commit, Finish, Succeeds;
    var j := JournalOf(f);
    if (j.None? || (j.value.Terminal() && |j.value.history| < HISTORY_LIMIT)) && Matching(j, c.id).None? {
      var preauth := Preauthorized(j, w, c, newId);
      PreauthorizedIsSound(j, w, c, newId);
      CommitKeeps(f, preauth, d);
      var (f1, d1, ok) := Commit(f, preauth, d);
      if ok { FinishKeeps(f1, preauth, w.owner, d1); }
    }
  }

  lemma AnsweredKeeps(f: Files, w: Worker, c: Command, newId: string, d: Disk)
    requires Sound(f) && f.journalStage.None? && Environment(w, c, newId) && !c.Capabilities?
    ensures var f' := Answered(f, JournalOf(f), w, c, newId, d).0; Sound(f') && Onward(f, f') && f'.update == f.update
  {
    hide JournalValid, U.OwnerValid, CommandValid, U.CanonicalGuid, Requested, Finish;
    var j := JournalOf(f);
    if c.Request? {
      RequestKeeps(f, w, c, newId, d);
    } else if j.Some? && j.value.phase.Preauth? {
      FinishKeeps(f, j.value, w.owner, d);
    }
  }

  lemma ExecutedKeeps(f: Files, w: Worker, c: Command, newId: string, d: Disk)
    requires Sound(f) && Environment(w, c, newId)
    ensures var f' := Executed(f, w, c, newId, d).0; Sound(f') && Onward(f, f') && f'.update == f.update
  {
    hide JournalValid, JournalSound, Environment, Answered, Publish, UpdateGate, Judge, Succeeds;
    if c.Capabilities? {
    } else if f.journalStage.None? {
      AnsweredKeeps(f, w, c, newId, d);
    } else if f.journalStage.value.Whole? {
      PublishKeeps(f, d);
      var (f1, d1, ok) := Publish(f, f.journalStage.value.journal, d);
      if ok { AnsweredKeeps(f1, w, c, newId, d1); }
    }
  }

  // ---- runs ----

  /** A command, or any change to the slot update files, which another part of the worker writes. */
  datatype Event =
    | Execute(worker: Worker, command: Command, newId: string, disk: Disk)
    | UpdateChanges(update: UpdateTransactionStore.Files)

  function Next(f: Files, ev: Event): Files {
    match ev
    case Execute(w, c, newId, d) => Executed(f, w, c, newId, d).0
    case UpdateChanges(u) => f.(update := u)
  }

  function ReplyTo(f: Files, ev: Event): Option<Reply> {
    if ev.Execute? then Some(Executed(f, ev.worker, ev.command, ev.newId, ev.disk).1) else None
  }

  datatype Run = Run(files: seq<Files>, events: seq<Event>)

  ghost predicate Legal(r: Run) {
    && |r.files| == |r.events| + 1
    && r.files[0].journal.None? && r.files[0].journalStage.None?
    && (forall i :: 0 <= i < |r.events| && r.events[i].Execute? ==>
          Environment(r.events[i].worker, r.events[i].command, r.events[i].newId))
    && (forall i :: 0 <= i < |r.events| ==> r.files[i + 1] == Next(r.files[i], r.events[i]))
  }

  lemma NextKeeps(f: Files, ev: Event)
    requires Sound(f) && (ev.Execute? ==> Environment(ev.worker, ev.command, ev.newId))
    ensures Sound(Next(f, ev)) && Onward(f, Next(f, ev))
  {
    hide Executed, Environment, JournalSound, JournalValid, Succeeds;
    if ev.Execute? { ExecutedKeeps(f, ev.worker, ev.command, ev.newId, ev.disk); }
  }

  lemma {:induction false} ReachableIsSound(r: Run, j: nat)
    requires Legal(r) && j < |r.files|
    ensures Sound(r.files[j])
  {
    hide Next, Environment, JournalSound;
    if j > 0 {
      ReachableIsSound(r, j - 1);
      NextKeeps(r.files[j - 1], r.events[j - 1]);
    }
  }

  /** The revision counts the records exactly, the generation lies between the requests and the records. */
  lemma RevisionCountsRecords(r: Run, i: nat)
    requires Legal(r) && i < |r.files| && JournalOf(r.files[i]).Some?
    ensures var j := JournalOf(r.files[i]).value;
            && j.revision == 2 * |j.history| + (if j.phase.Preauth? then 1 else 2)
            && |j.history| < j.generation <= j.revision <= 2 * HISTORY_LIMIT + 2
  {
    hide Next, Environment;
    ReachableIsSound(r, i);
  }

  lemma {:induction false} RunsGoOnward(r: Run, i: nat, j: nat)
    requires Legal(r) && i <= j < |r.files|
    ensures Onward(r.files[i], r.files[j])
    decreases j
  {
    hide Next, Environment, JournalSound, JournalOf, Sound;
    if i < j {
      RunsGoOnward(r, i, j - 1);
      ReachableIsSound(r, j - 1);
      NextKeeps(r.files[j - 1], r.events[j - 1]);
    }
  }

  /** A request on record keeps its transaction, release and policy for the whole run; no id is ever recorded twice. */
  lemma RequestsKeepTheirTransaction(r: Run, i: nat, j: nat, a: Receipt, b: Receipt)
    requires Legal(r) && i <= j < |r.files|
    requires a in ReceiptsOf(JournalOf(r.files[i])) && b in ReceiptsOf(JournalOf(r.files[j])) && a.requestId == b.requestId
    ensures a == b
  {
    hide Next, Environment, ReceiptValid;
    RunsGoOnward(r, i, j);
    ReachableIsSound(r, j);
    var rs := ReceiptsOf(JournalOf(r.files[j]));
    assert DistinctRequests(rs);
    var x :| 0 <= x < |ReceiptsOf(JournalOf(r.files[i]))| && ReceiptsOf(JournalOf(r.files[i]))[x] == a;
    var y :| 0 <= y < |rs| && rs[y] == b;
    assert rs[x] == a;
  }

  /** The receipt a finished request is answered from. */
  predicate OnRecord(f: Files, c: Command, transactionId: string)
    requires c.Request?
  {
    Receipt(c.id, c.releaseId, c.policyRevision, transactionId) in ReceiptsOf(JournalOf(f))
  }

  lemma EndedIsOnRecord(f: Files, w: Worker, c: Command, newId: string, d: Disk)
    requires Sound(f) && Environment(w, c, newId) && c.Request?
    ensures var (f', reply) := Executed(f, w, c, newId, d); reply.outcome.Ended? ==> OnRecord(f', c, reply.outcome.transactionId)
  {
    hide JournalValid, JournalSound, U.OwnerValid, CommandValid, U.CanonicalGuid, Succeeds, UpdateGate, Judge, Commit, Publish;
    GateIsNeverSafe(f.update, c.Recover?, JournalOf(f));
    if f.journalStage.None? {
      EndedRequest(f, w, c, newId, d);
    }
  }

  lemma EndedRequest(f: Files, w: Worker, c: Command, newId: string, d: Disk)
    requires Sound(f) && f.journalStage.None? && Environment(w, c, newId) && c.Request?
    ensures var (f', reply) := Requested(f, JournalOf(f), w, c, newId, d);
            reply.outcome.Ended? ==> OnRecord(f', c, reply.outcome.transactionId)
  {
    hide JournalValid, U.OwnerValid, CommandValid, U.CanonicalGuid, Commit, Finish, Succeeds;
    var j := JournalOf(f);
    if (j.None? || (j.value.Terminal() && |j.value.history| < HISTORY_LIMIT)) && Matching(j, c.id).None? {
      var preauth := Preauthorized(j, w, c, newId);
      PreauthorizedIsSound(j, w, c, newId);
      CommitKeeps(f, preauth, d);
      var (f1, d1, ok) := Commit(f, preauth, d);
      if ok {
        FinishKeeps(f1, preauth, w.owner, d1);
        assert Finished(preauth, w.owner).Receipts() == preauth.Receipts();
        assert preauth.Receipts()[|preauth.history|] == preauth.request;
      }
    } else if j.Some? {
      assert j.value.Receipts()[|j.value.history|] == j.value.request;
    }
  }

  /** However often a request is repeated, through crashes and restarts, it is answered with one transaction. */
  lemma RequestsAreIdempotent(r: Run, i: nat, j: nat)
    requires Legal(r) && i <= j < |r.events| && r.events[i].Execute? && r.events[j].Execute?
    requires r.events[i].command.Request? && r.events[j].command.Request? && r.events[i].command.id == r.events[j].command.id
    requires ReplyTo(r.files[i], r.events[i]).value.outcome.Ended? && ReplyTo(r.files[j], r.events[j]).value.outcome.Ended?
    ensures ReplyTo(r.files[i], r.events[i]).value.outcome == ReplyTo(r.files[j], r.events[j]).value.outcome
  {
    hide Executed, Environment, Sound, JournalOf;
    ReachableIsSound(r, i);
    ReachableIsSound(r, j);
    var a, b := r.events[i], r.events[j];
    EndedIsOnRecord(r.files[i], a.worker, a.command, a.newId, a.disk);
    EndedIsOnRecord(r.files[j], b.worker, b.command, b.newId, b.disk);
    RequestsKeepTheirTransaction(r, i + 1, j + 1,
      Receipt(a.command.id, a.command.releaseId, a.command.policyRevision, ReplyTo(r.files[i], a).value.outcome.transactionId),
      Receipt(b.command.id, b.command.releaseId, b.command.policyRevision, ReplyTo(r.files[j], b).value.outcome.transactionId));
  }

  // ---- the slot update store in the way ----

  predicate UpdateQuiet(u: UpdateTransactionStore.Files) { UpdateTransactionStore.NoStage(u) && u.transaction.None? }

  /**
   * The gate opens exactly when there is neither a stage nor a transaction: the phases a start would be
   * safe in are those a journal cannot be decoded in.
   */
  lemma GateOpensExactlyWhenQuiet(u: UpdateTransactionStore.Files, recover: bool, j: Option<Journal>)
    ensures UpdateGate(u, recover, j).None? <==> UpdateQuiet(u)
  {
    hide U.FieldsValid, U.SelectionValid;
  }

  predicate Settled(j: Option<Journal>) { j.None? || j.value.Terminal() }

  /** "Safe to start" is only ever said with no stage file, no slot update and no request in hand. */
  lemma SafeMeansSettled(f: Files, w: Worker, c: Command, newId: string, d: Disk)
    requires Sound(f) && Environment(w, c, newId)
    ensures var (f', reply) := Executed(f, w, c, newId, d);
            reply.SafeToStart() ==> f'.journalStage.None? && UpdateQuiet(f'.update) && Settled(JournalOf(f'))
  {
    hide JournalValid, JournalSound, Environment, Answered, Publish, UpdateGate, UpdateQuiet, Judge, Succeeds, Settled;
    var j := JournalOf(f);
    GateIsNeverSafe(f.update, c.Recover?, j);
    GateOpensExactlyWhenQuiet(f.update, c.Recover?, j);
    if c.Capabilities? {
    } else if f.journalStage.None? {
      AnsweredSafely(f, w, c, newId, d);
    } else if f.journalStage.value.Whole? {
      PublishKeeps(f, d);
      var (f1, d1, ok) := Publish(f, f.journalStage.value.journal, d);
      if ok { AnsweredSafely(f1, w, c, newId, d1); }
    }
  }

  lemma GateIsNeverSafe(u: UpdateTransactionStore.Files, recover: bool, j: Option<Journal>)
    ensures UpdateGate(u, recover, j).Some? ==> !UpdateGate(u, recover, j).value.SafeToStart()
  {
    hide U.FieldsValid, U.SelectionValid;
  }

  lemma AnsweredSafely(f: Files, w: Worker, c: Command, newId: string, d: Disk)
    requires Sound(f) && f.journalStage.None? && Environment(w, c, newId) && !c.Capabilities?
    ensures var (f', reply) := Answered(f, JournalOf(f), w, c, newId, d);
            f'.update == f.update && (reply.SafeToStart() ==> f'.journalStage.None? && Settled(JournalOf(f')))
  {
    hide JournalValid, U.OwnerValid, CommandValid, U.CanonicalGuid, Requested, Finish;
    var j := JournalOf(f);
    if c.Request? {
      RequestedSafely(f, w, c, newId, d);
    } else if j.Some? && j.value.phase.Preauth? {
      FinishKeeps(f, j.value, w.owner, d);
    }
  }

  lemma RequestedSafely(f: Files, w: Worker, c: Command, newId: string, d: Disk)
    requires Sound(f) && f.journalStage.None? && Environment(w, c, newId) && c.Request?
    ensures var (f', reply) := Requested(f, JournalOf(f), w, c, newId, d);
            f'.update == f.update && (reply.SafeToStart() ==> f'.journalStage.None? && Settled(JournalOf(f')))
  {
    hide JournalValid, U.OwnerValid, CommandValid, U.CanonicalGuid, Matching, Commit, Finish, Succeeds;
    var j := JournalOf(f);
    if (j.None? || (j.value.Terminal() && |j.value.history| < HISTORY_LIMIT)) && Matching(j, c.id).None? {
      var preauth := Preauthorized(j, w, c, newId);
      PreauthorizedIsSound(j, w, c, newId);
      CommitKeeps(f, preauth, d);
      var (f1, d1, ok) := Commit(f, preauth, d);
      if ok { FinishKeeps(f1, preauth, w.owner, d1); }
    }
  }

  // ---- recovery ----

  /** The worker may take over whatever is left unfinished. */
  predicate Adoptable(f: Files, w: Worker) {
    if f.journalStage.Some? && f.journalStage.value.Whole? then w.MayAdopt(f.journalStage.value.journal.owner)
    else Settled(JournalOf(f)) || w.MayAdopt(JournalOf(f).value.owner)
  }

  /**
   * With the disk working, recovery settles the journal and says so exactly when no slot update is on
   * file, no stage is torn and the worker may adopt what is unfinished.
   */
  lemma RecoverySettlesExactly(f: Files, w: Worker, id: string, newId: string, d: Disk)
    requires Sound(f) && Environment(w, Recover(id), newId) && d.steps >= 5
    ensures var (f', reply) := Executed(f, w, Recover(id), newId, d);
            && (reply.SafeToStart() <==> UpdateQuiet(f.update) && f.journalStage != Some(Unreadable) && Adoptable(f, w))
            && (reply.SafeToStart() ==> f'.journalStage.None? && Settled(JournalOf(f')))
  {
    hide JournalValid, JournalSound, Environment, Answered, Publish, UpdateGate, UpdateQuiet, Judge, Succeeds, Settled;
    var j := JournalOf(f);
    SoundDecodes(f);
    SafeMeansSettled(f, w, Recover(id), newId, d);
    GateIsNeverSafe(f.update, true, j);
    GateOpensExactlyWhenQuiet(f.update, true, j);
    if f.journalStage.None? {
      RecoverAnswered(f, w, id, newId, d);
    } else if f.journalStage.value.Whole? {
      var staged := f.journalStage.value.journal;
      StagedIsGood(f, w);
      PublishKeeps(f, d);
      PublishWorks(f, staged, d);
      var (f1, d1, ok) := Publish(f, staged, d);
      RecoverAnswered(f1, w, id, newId, d1);
    }
  }

  lemma PublishWorks(f: Files, staged: Journal, d: Disk)
    requires d.steps >= 2
    ensures Publish(f, staged, d).2 && Publish(f, staged, d).1.steps == d.steps - 2
  {
  }

  lemma StagedIsGood(f: Files, w: Worker)
    requires Sound(f) && f.journalStage.Some? && f.journalStage.value.Whole?
    ensures Decode(f.journalStage.value) == Some(f.journalStage.value.journal)
    ensures Judge(JournalOf(f), f.journalStage.value.journal, w).Good? <==> w.MayAdopt(f.journalStage.value.journal.owner)
    ensures Judge(JournalOf(f), f.journalStage.value.journal, w).Good? || Judge(JournalOf(f), f.journalStage.value.journal, w).Suspect?
  {
    hide ReceiptValid, DistinctRequests, U.OwnerValid, U.CanonicalGuid;
  }

  lemma RecoverAnswered(f: Files, w: Worker, id: string, newId: string, d: Disk)
    requires Sound(f) && f.journalStage.None? && Environment(w, Recover(id), newId) && d.steps >= 3
    ensures Answered(f, JournalOf(f), w, Recover(id), newId, d).1.SafeToStart()
            <==> Settled(JournalOf(f)) || w.MayAdopt(JournalOf(f).value.owner)
  {
    hide JournalValid, U.OwnerValid, CommandValid, U.CanonicalGuid, Finish;
    var j := JournalOf(f);
    if j.Some? && j.value.phase.Preauth? { FinishKeeps(f, j.value, w.owner, d); }
  }

  /** A request already answered is answered again from the record, whatever position it names, and nothing is written. */
  lemma RepeatIsAnsweredFromTheRecord(f: Files, w: Worker, c: Command, newId: string, d: Disk, transactionId: string)
    requires Sound(f) && UpdateQuiet(f.update) && f.journalStage.None? && Settled(JournalOf(f))
    requires c.Request? && OnRecord(f, c, transactionId)
    ensures Executed(f, w, c, newId, d) == (f, ReplyAt(JournalOf(f), Ended(transactionId)))
  {
    hide ReceiptValid, U.OwnerValid, U.CanonicalGuid, UpdateQuiet, UpdateGate;
    GateOpensExactlyWhenQuiet(f.update, c.Recover?, JournalOf(f));
    MatchingFinds(JournalOf(f).value, Receipt(c.id, c.releaseId, c.policyRevision, transactionId));
  }

  lemma MatchingFinds(j: Journal, r: Receipt)
    requires JournalSound(j) && r in j.Receipts()
    ensures Matching(Some(j), r.requestId) == Some(r)
  {
    hide ReceiptValid, U.OwnerValid, U.CanonicalGuid;
    var rs := j.Receipts();
    var x :| 0 <= x < |rs| && rs[x] == r;
    assert rs[|j.history|] == j.request;
    var found := Matching(Some(j), r.requestId);
    if x < |j.history| {
      assert j.history[x] == r;
      var y :| 0 <= y < |j.history| && found == Some(j.history[y]);
      assert rs[y] == j.history[y];
    }
  }

  lemma TornStageHolds(f: Files, w: Worker, c: Command, newId: string, d: Disk)
    requires f.journalStage == Some(Unreadable)
    ensures Executed(f, w, c, newId, d).0 == f && !Executed(f, w, c, newId, d).1.SafeToStart()
  {
    hide JournalValid, UpdateGate, Judge, Answered;
    GateIsNeverSafe(f.update, c.Recover?, JournalOf(f));
  }

  /** A torn stage is never cleared: for the rest of every run the journal stays as it is and no reply is safe. */
  lemma {:induction false} TornStageHoldsForEver(r: Run, i: nat, j: nat)
    requires Legal(r) && i <= j < |r.files| && r.files[i].journalStage == Some(Unreadable)
    ensures r.files[j].journal == r.files[i].journal && r.files[j].journalStage == Some(Unreadable)
    ensures j < |r.events| && r.events[j].Execute? ==> !ReplyTo(r.files[j], r.events[j]).value.SafeToStart()
    decreases j
  {
    hide Executed, Environment;
    if i < j {
      TornStageHoldsForEver(r, i, j - 1);
      var ev := r.events[j - 1];
      if ev.Execute? { TornStageHolds(r.files[j - 1], ev.worker, ev.command, ev.newId, ev.disk); }
    }
    if j < |r.events| && r.events[j].Execute? {
      var ev := r.events[j];
      TornStageHolds(r.files[j], ev.worker, ev.command, ev.newId, ev.disk);
    }
  }
}
