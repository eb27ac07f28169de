/** The request journal of the update worker: one request at a time, recovered after a crash. */
module WorkerJournal {
  import opened Common
  import AdmissionProtocol
  import U = UpdateTransactionJournal
  import UpdateTransactionStore

  datatype Receipt = Receipt(requestId: string, releaseId: string, policyRevision: int, transactionId: string)

  datatype Phase = Preauth | Unavailable | Unknown(name: string)

  /** As for the other records, the digest of a journal is represented by the journal. */
  datatype Digest = NoDigest | OfJournal(journal: Journal) | Other(text: string)

  /** `request` is the request in hand; `history` holds the receipts of the earlier ones, oldest first. */
  datatype Journal = Journal(generation: nat, revision: nat, previous: Digest, owner: U.ProcessOwner,
                             request: Receipt, phase: Phase, history: seq<Receipt>)
  {
    predicate Known() { phase.Preauth? || phase.Unavailable? }
    predicate Terminal() { phase.Unavailable? }
    function Receipts(): seq<Receipt> { history + [request] }
  }

  /** A journal file; a crash in the middle of staging leaves one that cannot be read. */
  datatype Content = Unreadable | Whole(journal: Journal)

  datatype Files = Files(journal: Option<Content>, journalStage: Option<Content>, update: UpdateTransactionStore.Files)

  datatype Command =
    | Capabilities(id: string)
    | Status(id: string)
    | Recover(id: string)
    | Request(id: string, releaseId: string, policyRevision: int, expectedGeneration: nat, expectedRevision: nat)

  datatype Reason =
    | UpdatePublicationPending | UpdatePending | SlotSelectionMissing | SlotSelectionConflict
    | PublicationPending | PendingStateUnverified | UnsupportedPhase | PreauthPending | TransactionBusy
    | PreviousOwnerUnverified | Unverified

  datatype Outcome =
    | CapabilityList
    | Nothing
    | Held(reason: Reason, heldBy: Option<string>)
    | Ended(transactionId: string)
    | Recovered(transactionId: string)

  /** A reply; `position` is missing when the journal could not be read at all. */
  datatype Reply = Reply(position: Option<(nat, nat)>, outcome: Outcome) {
    predicate SafeToStart() { outcome.Nothing? || outcome.Ended? || outcome.Recovered? }
  }

  /** How many disk operations still succeed, and whether a failing stage leaves a torn file. */
  datatype Disk = Disk(steps: nat, torn: bool)

  /** The worker process: itself, and the owners it observes to be gone. */
  datatype Worker = Worker(owner: U.ProcessOwner, gone: set<U.ProcessOwner>) {
    predicate MayAdopt(previous: U.ProcessOwner) { previous == owner || previous in gone }
  }

  const HISTORY_LIMIT := 64

  // ---- reading ----

  predicate ReceiptValid(r: Receipt) {
    && AdmissionProtocol.Identifier(r.requestId) && AdmissionProtocol.Identifier(r.releaseId) && r.policyRevision >= 1
    && U.CanonicalGuid(r.transactionId)
  }

  predicate DistinctRequests(rs: seq<Receipt>) {
    forall i, j :: 0 <= i < j < |rs| ==> rs[i].requestId != rs[j].requestId
  }

  predicate JournalValid(j: Journal) {
    && 1 <= j.generation <= ULONG_MAX && 1 <= j.revision <= ULONG_MAX
    && (j.previous.Other? ==> DigestText(j.previous.text)) && U.OwnerValid(j.owner)
    && U.CanonicalGuid(j.request.transactionId)
    && (j.Known() ==>
          && |j.history| <= HISTORY_LIMIT && DistinctRequests(j.Receipts())
          && forall i :: 0 <= i < |j.Receipts()| ==> ReceiptValid(j.Receipts()[i]))
  }

  function Decode(c: Content): Option<Journal> {
    if c.Whole? && JournalValid(c.journal) then Some(c.journal) else None
  }

  function DigestOf(j: Option<Journal>): Digest { if j.Some? then OfJournal(j.value) else NoDigest }

  function Generation(j: Option<Journal>): nat { if j.Some? then j.value.generation else 0 }

  function Revision(j: Option<Journal>): nat { if j.Some? then j.value.revision else 0 }

  // ---- replies ----

  function ReplyAt(j: Option<Journal>, outcome: Outcome): Reply { Reply(Some((Generation(j), Revision(j))), outcome) }

  function HeldReply(j: Option<Journal>, reason: Reason): Reply {
    ReplyAt(j, Held(reason, if j.Some? then Some(j.value.request.transactionId) else None))
  }

  function UnverifiedReply(j: Option<Journal>): Reply {
    if j.Some? then HeldReply(j, Unverified) else Reply(None, Held(Unverified, None))
  }

  /** What the slot update store makes the worker answer; `None` lets the command through. */
  function UpdateGate(u: UpdateTransactionStore.Files, recover: bool, j: Option<Journal>): Option<Reply> {
    if !UpdateTransactionStore.NoStage(u) then
      Some(if recover then UnverifiedReply(j) else HeldReply(j, UpdatePublicationPending))
    else
      match u.transaction
      case None => None
      case Some(t) =>
        if U.Validate(t).Some? then Some(UnverifiedReply(j))
        else if !U.SafeToStart(t) then Some(HeldReply(j, UpdatePending))
        else
          match u.selection
          case None => Some(HeldReply(j, SlotSelectionMissing))
          case Some(s) =>
            if !U.SelectionValid(s) then Some(UnverifiedReply(j))
            else if s.generation != t.generation || s.transactionId != t.transactionId
                    || s.slot != (if t.phase.Committed? then t.candidateSlot else t.previousSlot)
                    || s.slotDigest != (if t.phase.Committed? then t.candidateSlotDigest else t.previousSlotDigest)
            then Some(HeldReply(j, SlotSelectionConflict)) else None
  }

  // ---- writing ----

  /** Stages and publishes a journal; the flag says whether the worker saw it succeed. */
  function Commit(f: Files, j: Journal, d: Disk): (Files, Disk, bool) {
    if d.steps == 0 then (if d.torn then f.(journalStage := Some(Unreadable)) else f, d, false)
    else if d.steps == 1 then (f.(journalStage := Some(Whole(j))), d.(steps := 0), false)
    else Publish(f.(journalStage := Some(Whole(j))), j, d.(steps := d.steps - 1))
  }

  /** Moves the staged journal into place, then reads it back. */
  function Publish(f: Files, staged: Journal, d: Disk): (Files, Disk, bool) {
    if d.steps == 0 then (f, d, false)
    else (f.(journal := Some(Whole(staged)), journalStage := None), d.(steps := if d.steps == 1 then 0 else d.steps - 2), d.steps > 1)
  }

  function Finished(j: Journal, owner: U.ProcessOwner): Journal {
    Journal(if j.owner == owner then j.generation else j.generation + 1, j.revision + 1, OfJournal(j), owner,
            j.request, Unavailable, j.history)
  }

  function Finish(f: Files, j: Journal, owner: U.ProcessOwner, d: Disk): (Files, Disk, bool) {
    if Finished(j, owner).generation > ULONG_MAX || Finished(j, owner).revision > ULONG_MAX then (f, d, false)
    else Commit(f, Finished(j, owner), d)
  }

  function First(rs: seq<Receipt>, id: string): (r: Option<Receipt>)
    ensures r.Some? ==> r.value in rs && r.value.requestId == id
    ensures r.None? ==> forall i :: 0 <= i < |rs| ==> rs[i].requestId != id
  {
    if rs == [] then None else if rs[0].requestId == id then Some(rs[0]) else First(rs[1..], id)
  }

  /** The receipt of a request already made, if there is one. */
  function Matching(j: Option<Journal>, id: string): Option<Receipt> {
    if j.None? then None else if j.value.request.requestId == id then Some(j.value.request) else First(j.value.history, id)
  }

  function Preauthorized(j: Option<Journal>, w: Worker, c: Command, newId: string): Journal
    requires c.Request?
  {
    Journal(Generation(j) + 1, Revision(j) + 1, DigestOf(j), w.owner,
            Receipt(c.id, c.releaseId, c.policyRevision, newId), Preauth, if j.Some? then j.value.Receipts() else [])
  }

  function Requested(f: Files, j: Option<Journal>, w: Worker, c: Command, newId: string, d: Disk): (Files, Reply)
    requires c.Request?
  {
    if j.Some? && !j.value.Terminal() then
      (f, HeldReply(j, if j.value.request.requestId == c.id then PreauthPending else TransactionBusy))
    else
      var matching := Matching(j, c.id);
      if matching.Some? then
        (f, if matching.value.releaseId != c.releaseId || matching.value.policyRevision != c.policyRevision
            then UnverifiedReply(j) else ReplyAt(j, Ended(matching.value.transactionId)))
      else if c.expectedGeneration != Generation(j) || c.expectedRevision != Revision(j) then (f, UnverifiedReply(j))
      else if j.Some? && !w.MayAdopt(j.value.owner) then (f, HeldReply(j, PreviousOwnerUnverified))
      else if j.Some? && |j.value.history| >= HISTORY_LIMIT then (f, UnverifiedReply(j))
      else
        var preauth := Preauthorized(j, w, c, newId);
        if preauth.generation > ULONG_MAX || preauth.revision > ULONG_MAX then (f, UnverifiedReply(j)) else
        var (f1, d1, ok1) := Commit(f, preauth, d);
        if !ok1 then (f1, UnverifiedReply(j)) else
        var (f2, d2, ok2) := Finish(f1, preauth, w.owner, d1);
        if !ok2 then (f2, UnverifiedReply(j))
        else (f2, ReplyAt(Some(Finished(preauth, w.owner)), Ended(newId)))
  }

  /** The command once no stage is left. */
  function Answered(f: Files, j: Option<Journal>, w: Worker, c: Command, newId: string, d: Disk): (Files, Reply)
    requires !c.Capabilities?
  {
    if j.Some? && !j.value.Known() then (f, HeldReply(j, UnsupportedPhase)) else
    match c
    case Status(_) => (f, if j.None? || j.value.Terminal() then ReplyAt(j, Nothing) else HeldReply(j, PreauthPending))
    case Recover(_) =>
      if j.None? || j.value.Terminal() then (f, ReplyAt(j, Nothing))
      else if !w.MayAdopt(j.value.owner) then (f, HeldReply(j, PreviousOwnerUnverified))
      else
        var (f1, d1, ok) := Finish(f, j.value, w.owner, d);
        (f1, if ok then ReplyAt(Some(Finished(j.value, w.owner)), Recovered(j.value.request.transactionId)) else UnverifiedReply(j))
    case Request(_, _, _, _, _) => Requested(f, j, w, c, newId, d)
  }

  /** What the worker makes of a staged journal: refuse to look on, hold, or publish it. */
  datatype Verdict = Unclear | Suspect | Good

  function Judge(j: Option<Journal>, staged: Journal, w: Worker): Verdict {
    if !staged.Known() || staged.previous != DigestOf(j) then Suspect
    else if Revision(j) + 1 > ULONG_MAX then Unclear
    else if staged.revision != Revision(j) + 1 || staged.generation < (if j.Some? then j.value.generation else 1) then Suspect
    else if Generation(j) + 1 > ULONG_MAX then Unclear
    else if staged.generation > Generation(j) + 1 || !w.MayAdopt(staged.owner) then Suspect
    else Good
  }

  function Executed(f: Files, w: Worker, c: Command, newId: string, d: Disk): (Files, Reply) {
    var j := if f.journal.Some? then Decode(f.journal.value) else None;
    if f.journal.Some? && j.None? then (f, UnverifiedReply(None))
    else if c.Capabilities? then (f, ReplyAt(j, CapabilityList))
    else if UpdateGate(f.update, c.Recover?, j).Some? then (f, UpdateGate(f.update, c.Recover?, j).value)
    else if f.journalStage.None? then Answered(f, j, w, c, newId, d)
    else if !c.Recover? then (f, HeldReply(j, PublicationPending))
    else
      var staged := Decode(f.journalStage.value);
      if staged.None? then (f, UnverifiedReply(j)) else
      match Judge(j, staged.value, w)
      case Unclear => (f, UnverifiedReply(j))
      case Suspect => (f, HeldReply(j, PendingStateUnverified))
      case Good =>
        var (f1, d1, ok) := Publish(f, staged.value, d);
        if ok then Answered(f1, staged, w, c, newId, d1) else (f1, UnverifiedReply(j))
  }
}
