/** What each ledger operation does: refuse, or make a sequence of changes, each persisted before the next. */
module AttemptSteps {
  import opened Common
  import opened AttemptState

  datatype Refusal =
    | StoreUnavailable | RequestInvalid | AttemptIdConflict | WriterReservationBusy | OwnerMismatch
    | OperationDigestMismatch | AlreadyAborted | TargetPidInvalid | PhaseConflict | ReasonInvalid
    | ActiveProcessesRemain | TerminalProofConflict | ImportCancelled | ImportPhaseInvalid
    | ImportOwnerNotRunning | PublicationAlreadyCommitted

  datatype Release = Released | AlreadyReleased | Retained

  datatype Answer = Observed(entry: Entry) | Dispatched(first: bool) | Reservation(release: Release) | Done

  /** Each element of `writes` is the whole table as persisted by that step. */
  datatype Plan = Refuse(why: Refusal) | Steps(writes: seq<Attempts>, answer: Answer)

  /** The caller's proof that the attempt exists and is its own. */
  predicate Owns(m: Attempts, identity: Identity, sid: string) {
    && identity.attemptId in m
    && m[identity.attemptId].request.identity == identity
    && m[identity.attemptId].request.callerSid == sid
  }

  function NewEntry(r: Request, phase: Phase): Entry {
    Entry(r, phase, None, None, None, None, None, true)
  }

  predicate SameRequest(a: Request, b: Request) {
    a.identity == b.identity && a.callerSid == b.callerSid && SameKey(a.key, b.key) && a.operationDigest == b.operationDigest
  }

  function Prepare(m: Attempts, r: Request): Plan {
    var id := r.identity.attemptId;
    if !RequestValid(r) then Refuse(RequestInvalid)
    else if id in m then
      if SameRequest(m[id].request, r) then Steps([], Observed(m[id])) else Refuse(AttemptIdConflict)
    else if HasConflict(m, r, None) then Refuse(WriterReservationBusy)
    else Steps([m[id := NewEntry(r, Prepared)]], Observed(NewEntry(r, Prepared)))
  }

  function TryCommitDispatch(m: Attempts, identity: Identity, sid: string, operationDigest: string): Plan {
    if !Owns(m, identity, sid) then Refuse(OwnerMismatch) else
    var id, e := identity.attemptId, m[identity.attemptId];
    if e.request.operationDigest != operationDigest then Refuse(OperationDigestMismatch)
    else if e.phase.Prepared? then Steps([m[id := e.(phase := DispatchCommitted)]], Dispatched(true))
    else if e.phase.LaunchNotStarted? then Refuse(AlreadyAborted)
    else Steps([], Dispatched(false))
  }

  function MarkRunning(m: Attempts, identity: Identity, sid: string, pid: int): Plan {
    if pid <= 0 then Refuse(TargetPidInvalid)
    else if !Owns(m, identity, sid) then Refuse(OwnerMismatch) else
    var id, e := identity.attemptId, m[identity.attemptId];
    if e.phase.Running? && e.targetPid == Some(pid) then Steps([], Observed(e))
    else if !e.phase.DispatchCommitted? then Refuse(PhaseConflict)
    else
      var running := e.(targetPid := Some(pid), phase := Running);
      Steps([m[id := running]], Observed(running))
  }

  function AbortBeforeLaunch(m: Attempts, r: Request): Plan {
    var id := r.identity.attemptId;
    if !RequestValid(r) then Refuse(RequestInvalid)
    else if id in m then
      var e := m[id];
      if e.request.identity != r.identity || e.request.callerSid != r.callerSid || !SameKey(e.request.key, r.key)
      then Refuse(AttemptIdConflict)
      else if e.request.operationDigest != r.operationDigest && r.identity.requestDigest != r.operationDigest
      then Refuse(OperationDigestMismatch)
      else if e.phase.Prepared? then
        var aborted := e.(phase := LaunchNotStarted);
        Steps([m[id := aborted]], Observed(aborted))
      else Steps([], Observed(e))
    else if HasConflict(m, r, None) then Refuse(WriterReservationBusy)
    else Steps([m[id := NewEntry(r, LaunchNotStarted)]], Observed(NewEntry(r, LaunchNotStarted)))
  }

  /** `consumed` says whether the one-use collision proof was accepted for this attempt. */
  function MarkJobCollision(m: Attempts, identity: Identity, sid: string, consumed: bool): Plan {
    if !Owns(m, identity, sid) then Refuse(OwnerMismatch) else
    var id, e := identity.attemptId, m[identity.attemptId];
    if !consumed || !(e.phase.DispatchCommitted? || e.phase.TerminationUnknown?) || e.targetPid.Some? || !e.held
    then Refuse(PhaseConflict)
    else
      var failed := e.(phase := LaunchNotStarted, reason := Some("CONTAINMENT_JOB_NAME_IN_USE"), held := e.request.holdForImport);
      Steps([m[id := failed]], Observed(failed))
  }

  function MarkUnknown(m: Attempts, identity: Identity, sid: string, reason: string): Plan {
    if Blank(reason) || |reason| > 128 then Refuse(ReasonInvalid)
    else if !Owns(m, identity, sid) then Refuse(OwnerMismatch) else
    var id, e := identity.attemptId, m[identity.attemptId];
    if Launched(e.phase) then
      var unknown := e.(phase := TerminationUnknown, reason := Some(reason));
      Steps([m[id := unknown]], Observed(unknown))
    else Steps([], Observed(e))
  }

  function RecordTerminal(m: Attempts, identity: Identity, sid: string, outcome: ProcessOutcome, exitCode: int, active: int): Plan {
    if active != 0 then Refuse(ActiveProcessesRemain)
    else if !Owns(m, identity, sid) then Refuse(OwnerMismatch) else
    var id, e := identity.attemptId, m[identity.attemptId];
    if e.phase.TerminalVerified? then
      if e.outcome == Some(outcome) && e.exitCode == Some(exitCode) then Steps([], Observed(e)) else Refuse(TerminalProofConflict)
    else if !(Launched(e.phase) || e.phase.TerminationUnknown?) then Refuse(PhaseConflict)
    else
      var stopped := outcome.Cancelled? || outcome.TimedOut?;
      var ended := e.(phase := TerminalVerified, outcome := Some(outcome), exitCode := Some(exitCode),
                      activeProcesses := Some(0), reason := None,
                      request := e.request.(cancellationRequested := e.request.cancellationRequested || stopped));
      Steps([m[id := ended]], Observed(ended))
  }

  function ReleaseReservation(m: Attempts, identity: Identity, sid: string): Plan {
    if !Owns(m, identity, sid) then Refuse(OwnerMismatch) else
    var id, e := identity.attemptId, m[identity.attemptId];
    if !e.held then Steps([], Reservation(AlreadyReleased))
    else if e.request.holdForImport || !Ended(e.phase) then Steps([], Reservation(Retained))
    else Steps([m[id := e.(held := false)]], Reservation(Released))
  }

  function AcquireImport(m: Attempts, identity: Identity, sid: string): Plan {
    if !Owns(m, identity, sid) then Refuse(OwnerMismatch) else
    var id, e := identity.attemptId, m[identity.attemptId];
    if e.request.cancellationRequested then Refuse(ImportCancelled)
    else if e.request.holdForImport then Steps([], Done)
    else if !e.held || !Launched(e.phase) then Refuse(ImportPhaseInvalid)
    else
      var exclusive := e.request.(key := GLOBAL_KEY, shared := false, holdForImport := true);
      if HasConflict(m, exclusive, Some(id)) then Refuse(WriterReservationBusy)
      else Steps([m[id := e.(request := exclusive)]], Done)
  }

  function RequestCancellation(m: Attempts, identity: Identity, sid: string): Plan {
    if !Owns(m, identity, sid) then Refuse(OwnerMismatch) else
    var id, e := identity.attemptId, m[identity.attemptId];
    if !e.held then Steps([], Observed(e)) else
    var asked := e.(request := e.request.(cancellationRequested := true),
                    phase := if e.phase.Prepared? then LaunchNotStarted else e.phase);
    var m1 := if e.request.cancellationRequested then m else m[id := asked];
    var first := if e.request.cancellationRequested then [] else [m1];
    var second := if m1[id].phase.LaunchNotStarted? then ReleaseReservation(m1, identity, sid).writes else [];
    var last := if second != [] then second[0] else m1;
    Steps(first + second, Observed(last[id]))
  }

  /** The refusal of an import that may not validate or publish, if it may not. */
  function ImportRefusal(e: Entry): Option<Refusal> {
    if e.request.cancellationRequested then Some(ImportCancelled)
    else if !Launched(e.phase) || !e.held || !e.request.holdForImport then Some(ImportOwnerNotRunning)
    else if e.request.publicationCommitted then Some(PublicationAlreadyCommitted)
    else None
  }

  function CheckImport(m: Attempts, identity: Identity, sid: string): Plan {
    if !Owns(m, identity, sid) then Refuse(OwnerMismatch) else
    var refusal := ImportRefusal(m[identity.attemptId]);
    if refusal.Some? then Refuse(refusal.value) else Steps([], Done)
  }

  function CommitPublication(m: Attempts, identity: Identity, sid: string): Plan {
    if !Owns(m, identity, sid) then Refuse(OwnerMismatch) else
    var id, e := identity.attemptId, m[identity.attemptId];
    var refusal := ImportRefusal(e);
    if refusal.Some? then Refuse(refusal.value)
    else Steps([m[id := e.(request := e.request.(publicationCommitted := true))]], Done)
  }

  function CompleteImport(m: Attempts, identity: Identity, sid: string): Plan {
    if !Owns(m, identity, sid) then Refuse(OwnerMismatch) else
    var id, e := identity.attemptId, m[identity.attemptId];
    var m1 := if e.request.holdForImport then m[id := e.(request := e.request.(holdForImport := false))] else m;
    var first := if e.request.holdForImport then [m1] else [];
    var second := if Ended(e.phase) then ReleaseReservation(m1, identity, sid).writes else [];
    Steps(first + second, Done)
  }

  datatype Call =
    | CallPrepare(request: Request)
    | CallTryCommitDispatch(identity: Identity, sid: string, operationDigest: string)
    | CallMarkRunning(identity: Identity, sid: string, pid: int)
    | CallAbortBeforeLaunch(request: Request)
    | CallMarkJobCollision(identity: Identity, sid: string, consumed: bool)
    | CallMarkUnknown(identity: Identity, sid: string, reason: string)
    | CallRecordTerminal(identity: Identity, sid: string, outcome: ProcessOutcome, exitCode: int, active: int)
    | CallRelease(identity: Identity, sid: string)
    | CallAcquireImport(identity: Identity, sid: string)
    | CallRequestCancellation(identity: Identity, sid: string)
    | CallCheckImport(identity: Identity, sid: string)
    | CallCommitPublication(identity: Identity, sid: string)
    | CallCompleteImport(identity: Identity, sid: string)

  function PlanOf(m: Attempts, c: Call): Plan {
    match c
    case CallPrepare(r) => Prepare(m, r)
    case CallTryCommitDispatch(identity, sid, digest) => TryCommitDispatch(m, identity, sid, digest)
    case CallMarkRunning(identity, sid, pid) => MarkRunning(m, identity, sid, pid)
    case CallAbortBeforeLaunch(r) => AbortBeforeLaunch(m, r)
    case CallMarkJobCollision(identity, sid, consumed) => MarkJobCollision(m, identity, sid, consumed)
    case CallMarkUnknown(identity, sid, reason) => MarkUnknown(m, identity, sid, reason)
    case CallRecordTerminal(identity, sid, outcome, exitCode, active) => RecordTerminal(m, identity, sid, outcome, exitCode, active)
    case CallRelease(identity, sid) => ReleaseReservation(m, identity, sid)
    case CallAcquireImport(identity, sid) => AcquireImport(m, identity, sid)
    case CallRequestCancellation(identity, sid) => RequestCancellation(m, identity, sid)
    case CallCheckImport(identity, sid) => CheckImport(m, identity, sid)
    case CallCommitPublication(identity, sid) => CommitPublication(m, identity, sid)
    case CallCompleteImport(identity, sid) => CompleteImport(m, identity, sid)
  }

  // ---- what every persisted step keeps ----

  /** The order phases are climbed in. */
  function Rank(p: Phase): nat {
    match p
    case Prepared => 0
    case DispatchCommitted => 1
    case Running => 2
    case TerminationUnknown => 3
    case LaunchNotStarted => 4
    case TerminalVerified => 4
  }

  /** One attempt may only climb, never regain a reservation, never lose a mark, and drop its reservation only once ended. */
  predicate EntryClimbs(a: Entry, b: Entry) {
    && b.request.identity == a.request.identity && b.request.callerSid == a.request.callerSid
    && b.request.operationDigest == a.request.operationDigest
    && (b.phase == a.phase || Rank(a.phase) < Rank(b.phase))
    && (b.held ==> a.held)
    && (a.held && !b.held ==> Ended(b.phase))
    && (a.request.cancellationRequested ==> b.request.cancellationRequested)
    && (a.request.publicationCommitted ==> b.request.publicationCommitted)
    && (b.held && !a.request.holdForImport && b.request.holdForImport ==> b.request.key == GLOBAL_KEY && !b.request.shared)
  }

  ghost predicate Climbs(a: Attempts, b: Attempts) {
    forall id :: id in a ==> id in b && EntryClimbs(a[id], b[id])
  }

  /** Replacing one entry by a valid one of the same identity, whose reservation clashes with no other. */
  lemma ReplaceKeepsLedger(m: Attempts, id: string, e: Entry)
    requires LedgerValid(m) && id in m && e.request.identity == m[id].request.identity && StoredValid(e)
    requires e.held ==> m[id].held
    requires e.held && (e.request.key != m[id].request.key || e.request.shared != m[id].request.shared) ==> !HasConflict(m, e.request, Some(id))
    ensures LedgerValid(m[id := e])
  {
    hide StoredValid, SameKey;
    var after := m[id := e];
    forall i, j | i in after && j in after && i != j && after[i].held && after[j].held
      ensures !Conflict(after[i].request, after[j].request)
    {
      assert !Conflict(m[i].request, m[j].request) && !Conflict(m[j].request, m[i].request);
      ConflictSymmetric(after[i].request, after[j].request);
    }
  }

  lemma OneStepKeeps(m: Attempts, id: string, e: Entry)
    requires LedgerValid(m) && id in m && EntryClimbs(m[id], e) && StoredValid(e)
    requires e.held && (e.request.key != m[id].request.key || e.request.shared != m[id].request.shared) ==> !HasConflict(m, e.request, Some(id))
    ensures LedgerValid(m[id := e]) && Climbs(m, m[id := e])
  {
    ReplaceKeepsLedger(m, id, e);
    hide StoredValid;
  }

  lemma NewEntryKeeps(m: Attempts, r: Request, phase: Phase)
    requires LedgerValid(m) && RequestValid(r) && r.identity.attemptId !in m && !HasConflict(m, r, None)
    requires phase.Prepared? || phase.LaunchNotStarted?
    ensures LedgerValid(m[r.identity.attemptId := NewEntry(r, phase)])
    ensures Climbs(m, m[r.identity.attemptId := NewEntry(r, phase)])
  {
    hide RequestValid, Conflict;
    AddKeepsLedger(m, r.identity.attemptId, NewEntry(r, phase));
  }

  /** The steps of a plan, taken one after another from `m`, each keep the ledger and only climb. */
  ghost predicate GoodSteps(m: Attempts, writes: seq<Attempts>) {
    && (|writes| >= 1 ==> LedgerValid(writes[0]) && Climbs(m, writes[0]))
    && (|writes| == 2 ==> LedgerValid(writes[1]) && Climbs(writes[0], writes[1]))
    && |writes| <= 2
  }

  /** A call that changes one attempt in one step. */
  lemma SingleStepGood(m: Attempts, c: Call)
    requires LedgerValid(m) && PlanOf(m, c).Steps?
    requires !c.CallRequestCancellation? && !c.CallCompleteImport?
    ensures GoodSteps(m, PlanOf(m, c).writes)
  {
    hide RequestValid, Conflict, HasConflict, Exclusion, Climbs, SameKey;
    if PlanOf(m, c).writes != [] {
      if c.CallPrepare? {
        NewEntryKeeps(m, c.request, Prepared);
      } else if c.CallAbortBeforeLaunch? {
        var id := c.request.identity.attemptId;
        if id in m {
          OneStepKeeps(m, id, PlanOf(m, c).writes[0][id]);
        } else {
          NewEntryKeeps(m, c.request, LaunchNotStarted);
        }
      } else if c.CallAcquireImport? {
        AcquireGood(m, c);
      } else {
        var id := c.identity.attemptId;
        ChangedEntryValid(m, c);
        OneStepKeeps(m, id, PlanOf(m, c).writes[0][id]);
      }
    }
  }

  /** The one entry such a call changes stays storable and climbs. */
  lemma ChangedEntryValid(m: Attempts, c: Call)
    requires EntriesValid(m) && PlanOf(m, c).Steps? && PlanOf(m, c).writes != []
    requires !c.CallPrepare? && !c.CallAbortBeforeLaunch? && !c.CallAcquireImport?
    requires !c.CallRequestCancellation? && !c.CallCompleteImport?
    ensures var id := c.identity.attemptId;
            && id in m && id in PlanOf(m, c).writes[0]
            && PlanOf(m, c).writes == [m[id := PlanOf(m, c).writes[0][id]]]
            && StoredValid(PlanOf(m, c).writes[0][id]) && EntryClimbs(m[id], PlanOf(m, c).writes[0][id])
            && PlanOf(m, c).writes[0][id].request.key == m[id].request.key
            && PlanOf(m, c).writes[0][id].request.shared == m[id].request.shared
  {
    hide Name, Sid, DigestText, FullyQualified;
    assert StoredValid(m[c.identity.attemptId]);
  }

  lemma AcquireGood(m: Attempts, c: Call)
    requires LedgerValid(m) && c.CallAcquireImport? && PlanOf(m, c).Steps? && PlanOf(m, c).writes != []
    ensures GoodSteps(m, PlanOf(m, c).writes)
  {
    GlobalKeyQualified();
    hide Conflict, Exclusion, SameKey, FullyQualified;
    OneStepKeeps(m, c.identity.attemptId, PlanOf(m, c).writes[0][c.identity.attemptId]);
  }

  lemma ReleaseGood(m: Attempts, identity: Identity, sid: string)
    requires LedgerValid(m) && Owns(m, identity, sid)
    ensures GoodSteps(m, ReleaseReservation(m, identity, sid).writes)
    ensures |ReleaseReservation(m, identity, sid).writes| <= 1
  {
    hide RequestValid, Conflict, HasConflict, Exclusion, Climbs, SameKey, LedgerValid;
    SingleStepGood(m, CallRelease(identity, sid));
  }

  lemma CancellationGood(m: Attempts, identity: Identity, sid: string)
    requires LedgerValid(m) && Owns(m, identity, sid)
    ensures GoodSteps(m, RequestCancellation(m, identity, sid).writes)
  {
    hide RequestValid, Conflict, HasConflict, Exclusion, Climbs, SameKey;
    var id, e := identity.attemptId, m[identity.attemptId];
    if e.held {
      var asked := e.(request := e.request.(cancellationRequested := true),
                      phase := if e.phase.Prepared? then LaunchNotStarted else e.phase);
      assert StoredValid(e);
      AskedStaysValid(e, asked);
      OneStepKeeps(m, id, asked);
      var m1 := if e.request.cancellationRequested then m else m[id := asked];
      ReleaseGood(m1, identity, sid);
    }
  }

  lemma AskedStaysValid(e: Entry, asked: Entry)
    requires StoredValid(e)
    requires asked == e.(request := e.request.(cancellationRequested := true),
                         phase := if e.phase.Prepared? then LaunchNotStarted else e.phase)
    ensures StoredValid(asked) && EntryClimbs(e, asked)
  {
  }

  lemma CompletionGood(m: Attempts, identity: Identity, sid: string)
    requires LedgerValid(m) && Owns(m, identity, sid)
    ensures GoodSteps(m, CompleteImport(m, identity, sid).writes)
  {
    hide RequestValid, Conflict, HasConflict, Exclusion, Climbs, SameKey;
    var id, e := identity.attemptId, m[identity.attemptId];
    var cleared := e.(request := e.request.(holdForImport := false));
    assert StoredValid(e);
    ClearedStaysValid(e, cleared);
    OneStepKeeps(m, id, cleared);
    var m1 := if e.request.holdForImport then m[id := cleared] else m;
    ReleaseGood(m1, identity, sid);
  }

  lemma ClearedStaysValid(e: Entry, cleared: Entry)
    requires StoredValid(e) && cleared == e.(request := e.request.(holdForImport := false))
    ensures StoredValid(cleared) && EntryClimbs(e, cleared)
  {
  }

  /** Every call, from every valid ledger, persists only valid ledgers, and each of them only climbs from the one before. */
  lemma EveryPlanIsGood(m: Attempts, c: Call)
    requires LedgerValid(m) && PlanOf(m, c).Steps?
    ensures GoodSteps(m, PlanOf(m, c).writes)
  {
    if c.CallRequestCancellation? {
      CancellationGood(m, c.identity, c.sid);
    } else if c.CallCompleteImport? {
      CompletionGood(m, c.identity, c.sid);
    } else {
      SingleStepGood(m, c);
    }
  }

  // ---- exclusive ownership of the global key ----

  /** The attempt holds the machine-wide reservation by itself. */
  predicate HoldsGlobal(e: Entry) { e.held && SameKey(e.request.key, GLOBAL_KEY) && !e.request.shared }

  predicate FirstDispatch(p: Plan) { p.Steps? && p.answer == Dispatched(true) }

  /** While one attempt holds the global key, every other is released and has ended. */
  lemma GlobalExcludesAll(m: Attempts, id: string, other: string)
    requires LedgerValid(m) && id in m && HoldsGlobal(m[id]) && other in m && other != id
    ensures !m[other].held && Ended(m[other].phase)
  {
    assert Conflict(m[id].request, m[other].request);
  }

  /** So no other attempt can be dispatched, and no new one prepared or aborted into the table, until it lets go. */
  lemma GlobalBlocksOthers(m: Attempts, id: string, c: Call)
    requires LedgerValid(m) && id in m && HoldsGlobal(m[id])
    ensures c.CallTryCommitDispatch? && c.identity.attemptId != id ==> !FirstDispatch(PlanOf(m, c))
    ensures (c.CallPrepare? || c.CallAbortBeforeLaunch?) && c.request.identity.attemptId !in m ==> PlanOf(m, c).Refuse?
  {
    hide RequestValid, StoredValid, FullyQualified;
    if c.CallTryCommitDispatch? && Owns(m, c.identity, c.sid) && c.identity.attemptId != id {
      GlobalExcludesAll(m, id, c.identity.attemptId);
    }
    if (c.CallPrepare? || c.CallAbortBeforeLaunch?) && c.request.identity.attemptId !in m {
      assert Conflict(m[id].request, c.request);
      assert HasConflict(m, c.request, None);
    }
  }

  /** A first dispatch is granted exactly from the prepared phase, and leaves it. */
  lemma DispatchedLeavesPrepared(m: Attempts, c: Call)
    requires c.CallTryCommitDispatch? && FirstDispatch(PlanOf(m, c))
    ensures c.identity.attemptId in m && m[c.identity.attemptId].phase == Prepared
    ensures PlanOf(m, c).writes == [m[c.identity.attemptId := m[c.identity.attemptId].(phase := DispatchCommitted)]]
  {
  }
}
