/** The ledger process: a table of attempts in memory, persisted whole after every change. */
module AttemptLedger {
  import opened Common
  import opened AttemptState
  import opened AttemptSteps

  /** One save may fail before the file is replaced, after it, or not at all. */
  datatype Store = Works | SaveFails | SavedUnconfirmed

  /** Memory, file, and whether the ledger still answers. */
  datatype World = World(mem: Attempts, durable: Attempts, available: bool)

  function AfterSave(durable: Attempts, next: Attempts, store: Store): World {
    match store
    case Works => World(next, next, true)
    case SaveFails => World(next, durable, false)
    case SavedUnconfirmed => World(next, next, false)
  }

  /** Carrying out a plan of at most two steps under the store's behaviour. */
  function CarryOut(m: Attempts, plan: Plan, first: Store, second: Store): (World, Result<Answer, Refusal>) {
    match plan
    case Refuse(why) => (World(m, m, true), Refused(why))
    case Steps(writes, answer) =>
      if writes == [] then (World(m, m, true), Ok(answer)) else
      var w := AfterSave(m, writes[0], first);
      if !w.available then (w, Refused(StoreUnavailable))
      else if |writes| == 1 then (w, Ok(answer)) else
      var w' := AfterSave(writes[0], writes[1], second);
      (w', if w'.available then Ok(answer) else Refused(StoreUnavailable))
  }

  class Ledger {
    var attempts: Attempts
    var unavailable: bool
    var disk: seq<Entry>
    ghost var durable: Attempts

    ghost predicate Valid()
      reads this
    {
      && LedgerValid(attempts)
      && LedgerValid(durable) && Lists(disk, durable)
      && (!unavailable ==> attempts == durable)
    }

    ghost function Here(): World
      reads this
    {
      World(attempts, durable, !unavailable)
    }

    /** The ledger over a file that already says what was loaded. */
    constructor (loaded: Attempts, disk: seq<Entry>)
      requires LedgerValid(loaded) && Lists(disk, loaded)
      ensures Valid() && Here() == World(loaded, loaded, true) && this.disk == disk
    {
      attempts, unavailable, this.disk, durable := loaded, false, disk, loaded;
    }

    /** Start-up over the stored array: load, demote what was launched, and persist if anything was. */
    static method Open(disk: seq<Entry>, store: Store) returns (r: Option<Ledger>, file: seq<Entry>)
      ensures r.Some? <==> Loadable(disk) && (store.Works? || !exists k :: 0 <= k < |disk| && Launched(disk[k].phase))
      ensures r.Some? ==> fresh(r.value) && r.value.Valid() && !r.value.unavailable
                          && LoadsTo(disk, r.value.attempts) && r.value.disk == file
      ensures r.Some? ==> r.value.Here() == World(r.value.attempts, r.value.attempts, true)
      ensures file == disk || (Loadable(disk) && forall m :: LoadsTo(disk, m) ==> Lists(file, m))
      ensures store.SaveFails? ==> file == disk
      ensures Loadable(disk) && !store.SaveFails? ==> forall m :: LoadsTo(disk, m) ==> Lists(file, m)
    {
      hide StoredValid, Conflict;
      var loaded, recovered := Load(disk);
      if loaded.None? { return None, disk; }
      if !recovered {
        NothingDemoted(disk, loaded.value);
        var same := new Ledger(loaded.value, disk);
        return Some(same), disk;
      }
      var snapshot := Snapshot(loaded.value);
      forall m | LoadsTo(disk, m)
        ensures m == loaded.value
      {
        LoadIsUnique(disk, m, loaded.value);
      }
      if store != Works {
        return None, if store.SaveFails? then disk else snapshot;
      }
      var ledger := new Ledger(loaded.value, snapshot);
      return Some(ledger), snapshot;
    }

    /** Writes the whole table; any failure makes the ledger refuse everything until restarted. */
    method Persist(store: Store) returns (ok: bool)
      requires LedgerValid(attempts) && LedgerValid(durable) && Lists(disk, durable) && !unavailable
      modifies this`unavailable, this`disk, this`durable
      ensures Valid() && ok == !unavailable
      ensures Here() == AfterSave(old(durable), attempts, store)
    {
      hide StoredValid, Conflict, Lists;
      var snapshot := Snapshot(attempts);
      if store != SaveFails {
        disk := snapshot;
        durable := attempts;
      }
      unavailable := store != Works;
      ok := store == Works;
    }

    /** Replaces one entry of the table and persists it. */
    method Change(id: string, entry: Entry, store: Store) returns (ok: bool)
      requires Valid() && !unavailable && LedgerValid(attempts[id := entry])
      modifies this
      ensures Valid() && ok == !unavailable
      ensures Here() == AfterSave(old(attempts), old(attempts)[id := entry], store)
    {
      attempts := attempts[id := entry];
      ok := Persist(store);
    }

    method Prepare(request: Request, store: Store) returns (r: Result<Answer, Refusal>)
      requires Valid()
      modifies this
      ensures Valid()
      ensures old(unavailable) ==> r.Refused? && unchanged(this)
      ensures !old(unavailable) ==> (Here(), r) == CarryOut(old(attempts), AttemptSteps.Prepare(old(attempts), request), store, Works)
    {
      hide RequestValid, LedgerValid, Climbs, Lists;
      if !RequestValid(request) { return Refused(RequestInvalid); }
      if unavailable { return Refused(StoreUnavailable); }
      var id := request.identity.attemptId;
      if id in attempts {
        return if SameRequest(attempts[id].request, request) then Ok(Observed(attempts[id])) else Refused(AttemptIdConflict);
      }
      if HasConflict(attempts, request, None) { return Refused(WriterReservationBusy); }
      NewEntryKeeps(attempts, request, Prepared);
      var ok := Change(id, NewEntry(request, Prepared), store);
      r := if ok then Ok(Observed(NewEntry(request, Prepared))) else Refused(StoreUnavailable);
    }

    method TryCommitDispatch(identity: Identity, sid: string, operationDigest: string, store: Store)
      returns (r: Result<Answer, Refusal>)
      requires Valid()
      modifies this
      ensures Valid()
      ensures old(unavailable) ==> r == Refused(StoreUnavailable) && unchanged(this)
      ensures !old(unavailable) ==>
                (Here(), r) == CarryOut(old(attempts), AttemptSteps.TryCommitDispatch(old(attempts), identity, sid, operationDigest), store, Works)
    {
      hide LedgerValid, Climbs, Lists, Blank;
      if unavailable { return Refused(StoreUnavailable); }
      if !Owns(attempts, identity, sid) { return Refused(OwnerMismatch); }
      var id, e := identity.attemptId, attempts[identity.attemptId];
      if e.request.operationDigest != operationDigest { return Refused(OperationDigestMismatch); }
      if e.phase.Prepared? {
        EveryPlanIsGood(attempts, CallTryCommitDispatch(identity, sid, operationDigest));
        var ok := Change(id, e.(phase := DispatchCommitted), store);
        return if ok then Ok(Dispatched(true)) else Refused(StoreUnavailable);
      }
      if e.phase.LaunchNotStarted? { return Refused(AlreadyAborted); }
      return Ok(Dispatched(false));
    }

    method MarkRunning(identity: Identity, sid: string, pid: int, store: Store) returns (r: Result<Answer, Refusal>)
      requires Valid()
      modifies this
      ensures Valid()
      ensures old(unavailable) ==> r.Refused? && unchanged(this)
      ensures !old(unavailable) ==> (Here(), r) == CarryOut(old(attempts), AttemptSteps.MarkRunning(old(attempts), identity, sid, pid), store, Works)
    {
      hide LedgerValid, Climbs, Lists, Blank;
      if pid <= 0 { return Refused(TargetPidInvalid); }
      if unavailable { return Refused(StoreUnavailable); }
      if !Owns(attempts, identity, sid) { return Refused(OwnerMismatch); }
      var id, e := identity.attemptId, attempts[identity.attemptId];
      if e.phase.Running? && e.targetPid == Some(pid) { return Ok(Observed(e)); }
      if !e.phase.DispatchCommitted? { return Refused(PhaseConflict); }
      EveryPlanIsGood(attempts, CallMarkRunning(identity, sid, pid));
      var running := e.(targetPid := Some(pid), phase := Running);
      var ok := Change(id, running, store);
      r := if ok then Ok(Observed(running)) else Refused(StoreUnavailable);
    }

    method AbortBeforeLaunch(request: Request, store: Store) returns (r: Result<Answer, Refusal>)
      requires Valid()
      modifies this
      ensures Valid()
      ensures old(unavailable) ==> r.Refused? && unchanged(this)
      ensures !old(unavailable) ==> (Here(), r) == CarryOut(old(attempts), AttemptSteps.AbortBeforeLaunch(old(attempts), request), store, Works)
    {
      hide RequestValid, LedgerValid, Climbs, Lists;
      if !RequestValid(request) { return Refused(RequestInvalid); }
      if unavailable { return Refused(StoreUnavailable); }
      var id := request.identity.attemptId;
      if id in attempts {
        var e := attempts[id];
        if e.request.identity != request.identity || e.request.callerSid != request.callerSid || !SameKey(e.request.key, request.key) {
          return Refused(AttemptIdConflict);
        }
        if e.request.operationDigest != request.operationDigest && request.identity.requestDigest != request.operationDigest {
          return Refused(OperationDigestMismatch);
        }
        if !e.phase.Prepared? { return Ok(Observed(e)); }
        EveryPlanIsGood(attempts, CallAbortBeforeLaunch(request));
        var aborted := e.(phase := LaunchNotStarted);
        var ok := Change(id, aborted, store);
        return if ok then Ok(Observed(aborted)) else Refused(StoreUnavailable);
      }
      if HasConflict(attempts, request, None) { return Refused(WriterReservationBusy); }
      NewEntryKeeps(attempts, request, LaunchNotStarted);
      var ok := Change(id, NewEntry(request, LaunchNotStarted), store);
      r := if ok then Ok(Observed(NewEntry(request, LaunchNotStarted))) else Refused(StoreUnavailable);
    }

    method MarkJobCollision(identity: Identity, sid: string, consumed: bool, store: Store) returns (r: Result<Answer, Refusal>)
      requires Valid()
      modifies this
      ensures Valid()
      ensures old(unavailable) ==> r == Refused(StoreUnavailable) && unchanged(this)
      ensures !old(unavailable) ==> (Here(), r) == CarryOut(old(attempts), AttemptSteps.MarkJobCollision(old(attempts), identity, sid, consumed), store, Works)
    {
      hide LedgerValid, Climbs, Lists, Blank;
      if unavailable { return Refused(StoreUnavailable); }
      if !Owns(attempts, identity, sid) { return Refused(OwnerMismatch); }
      var id, e := identity.attemptId, attempts[identity.attemptId];
      if !consumed || !(e.phase.DispatchCommitted? || e.phase.TerminationUnknown?) || e.targetPid.Some? || !e.held {
        return Refused(PhaseConflict);
      }
      EveryPlanIsGood(attempts, CallMarkJobCollision(identity, sid, consumed));
      var failed := e.(phase := LaunchNotStarted, reason := Some("CONTAINMENT_JOB_NAME_IN_USE"), held := e.request.holdForImport);
      var ok := Change(id, failed, store);
      r := if ok then Ok(Observed(failed)) else Refused(StoreUnavailable);
    }

    method MarkUnknown(identity: Identity, sid: string, reason: string, store: Store) returns (r: Result<Answer, Refusal>)
      requires Valid()
      modifies this
      ensures Valid()
      ensures old(unavailable) ==> r.Refused? && unchanged(this)
      ensures !old(unavailable) ==> (Here(), r) == CarryOut(old(attempts), AttemptSteps.MarkUnknown(old(attempts), identity, sid, reason), store, Works)
    {
      hide LedgerValid, Climbs, Lists, Blank;
      if Blank(reason) || |reason| > 128 { return Refused(ReasonInvalid); }
      if unavailable { return Refused(StoreUnavailable); }
      if !Owns(attempts, identity, sid) { return Refused(OwnerMismatch); }
      var id, e := identity.attemptId, attempts[identity.attemptId];
      if !Launched(e.phase) { return Ok(Observed(e)); }
      EveryPlanIsGood(attempts, CallMarkUnknown(identity, sid, reason));
      var unknown := e.(phase := TerminationUnknown, reason := Some(reason));
      var ok := Change(id, unknown, store);
      r := if ok then Ok(Observed(unknown)) else Refused(StoreUnavailable);
    }

    method RecordTerminal(identity: Identity, sid: string, outcome: ProcessOutcome, exitCode: int, active: int, store: Store)
      returns (r: Result<Answer, Refusal>)
      requires Valid()
      modifies this
      ensures Valid()
      ensures old(unavailable) ==> r.Refused? && unchanged(this)
      ensures !old(unavailable) ==>
                (Here(), r) == CarryOut(old(attempts), AttemptSteps.RecordTerminal(old(attempts), identity, sid, outcome, exitCode, active), store, Works)
    {
      hide LedgerValid, Climbs, Lists, Blank;
      if active != 0 { return Refused(ActiveProcessesRemain); }
      if unavailable { return Refused(StoreUnavailable); }
      if !Owns(attempts, identity, sid) { return Refused(OwnerMismatch); }
      var id, e := identity.attemptId, attempts[identity.attemptId];
      if e.phase.TerminalVerified? {
        return if e.outcome == Some(outcome) && e.exitCode == Some(exitCode) then Ok(Observed(e)) else Refused(TerminalProofConflict);
      }
      if !(Launched(e.phase) || e.phase.TerminationUnknown?) { return Refused(PhaseConflict); }
      EveryPlanIsGood(attempts, CallRecordTerminal(identity, sid, outcome, exitCode, active));
      var stopped := outcome.Cancelled? || outcome.TimedOut?;
      var ended := e.(phase := TerminalVerified, outcome := Some(outcome), exitCode := Some(exitCode),
                      activeProcesses := Some(0), reason := None,
                      request := e.request.(cancellationRequested := e.request.cancellationRequested || stopped));
      var ok := Change(id, ended, store);
      r := if ok then Ok(Observed(ended)) else Refused(StoreUnavailable);
    }

    method ReleaseReservation(identity: Identity, sid: string, store: Store) returns (r: Result<Answer, Refusal>)
      requires Valid()
      modifies this
      ensures Valid()
      ensures old(unavailable) ==> r == Refused(StoreUnavailable) && unchanged(this)
      ensures !old(unavailable) ==> (Here(), r) == CarryOut(old(attempts), AttemptSteps.ReleaseReservation(old(attempts), identity, sid), store, Works)
    {
      hide LedgerValid, Climbs, Lists, Blank;
      if unavailable { return Refused(StoreUnavailable); }
      if !Owns(attempts, identity, sid) { return Refused(OwnerMismatch); }
      var id, e := identity.attemptId, attempts[identity.attemptId];
      if !e.held { return Ok(Reservation(AlreadyReleased)); }
      if e.request.holdForImport || !Ended(e.phase) { return Ok(Reservation(Retained)); }
      ReleaseGood(attempts, identity, sid);
      var ok := Change(id, e.(held := false), store);
      r := if ok then Ok(Reservation(Released)) else Refused(StoreUnavailable);
    }

    method AcquireImport(identity: Identity, sid: string, store: Store) returns (r: Result<Answer, Refusal>)
      requires Valid()
      modifies this
      ensures Valid()
      ensures old(unavailable) ==> r == Refused(StoreUnavailable) && unchanged(this)
      ensures !old(unavailable) ==> (Here(), r) == CarryOut(old(attempts), AttemptSteps.AcquireImport(old(attempts), identity, sid), store, Works)
    {
      hide LedgerValid, Climbs, Lists, Blank;
      if unavailable { return Refused(StoreUnavailable); }
      if !Owns(attempts, identity, sid) { return Refused(OwnerMismatch); }
      var id, e := identity.attemptId, attempts[identity.attemptId];
      if e.request.cancellationRequested { return Refused(ImportCancelled); }
      if e.request.holdForImport { return Ok(Done); }
      if !e.held || !Launched(e.phase) { return Refused(ImportPhaseInvalid); }
      var exclusive := e.request.(key := GLOBAL_KEY, shared := false, holdForImport := true);
      if HasConflict(attempts, exclusive, Some(id)) { return Refused(WriterReservationBusy); }
      EveryPlanIsGood(attempts, CallAcquireImport(identity, sid));
      var ok := Change(id, e.(request := exclusive), store);
      r := if ok then Ok(Done) else Refused(StoreUnavailable);
    }

    /** Two steps when the attempt never started: the cancellation is persisted, then the release. */
    method RequestCancellation(identity: Identity, sid: string, first: Store, second: Store) returns (r: Result<Answer, Refusal>)
      requires Valid()
      modifies this
      ensures Valid()
      ensures old(unavailable) ==> r == Refused(StoreUnavailable) && unchanged(this)
      ensures !old(unavailable) ==>
                (Here(), r) == CarryOut(old(attempts), AttemptSteps.RequestCancellation(old(attempts), identity, sid),
                                       if old(CancellationAsks(identity, sid)) then first else second, second)
    {
      hide LedgerValid, Climbs, Lists, Blank;
      if unavailable { return Refused(StoreUnavailable); }
      if !Owns(attempts, identity, sid) { return Refused(OwnerMismatch); }
      var id := identity.attemptId;
      if !attempts[id].held { return Ok(Observed(attempts[id])); }
      CancellationGood(attempts, identity, sid);
      if !attempts[id].request.cancellationRequested {
        var e := attempts[id];
        var asked := e.(request := e.request.(cancellationRequested := true),
                        phase := if e.phase.Prepared? then LaunchNotStarted else e.phase);
        var ok := Change(id, asked, first);
        if !ok { return Refused(StoreUnavailable); }
      }
      if attempts[id].phase.LaunchNotStarted? {
        var released := ReleaseReservation(identity, sid, second);
        if released.Refused? { return Refused(StoreUnavailable); }
      }
      r := Ok(Observed(attempts[id]));
    }

    /** Whether the cancellation itself is still to be written. */
    ghost predicate CancellationAsks(identity: Identity, sid: string)
      reads this
    {
      Owns(attempts, identity, sid) && !attempts[identity.attemptId].request.cancellationRequested
    }

    /** The check made before and during validation of an import. */
    method CheckImport(identity: Identity, sid: string) returns (r: Result<Answer, Refusal>)
      requires Valid()
      ensures unavailable ==> r == Refused(StoreUnavailable)
      ensures !unavailable ==> r == CarryOut(attempts, AttemptSteps.CheckImport(attempts, identity, sid), Works, Works).1
    {
      hide LedgerValid;
      if unavailable { return Refused(StoreUnavailable); }
      if !Owns(attempts, identity, sid) { return Refused(OwnerMismatch); }
      var refusal := ImportRefusal(attempts[identity.attemptId]);
      r := if refusal.Some? then Refused(refusal.value) else Ok(Done);
    }

    /** The durable point of no return of a publication; the caller persists its intent under the same lock. */
    method CommitPublication(identity: Identity, sid: string, store: Store) returns (r: Result<Answer, Refusal>)
      requires Valid()
      modifies this
      ensures Valid()
      ensures old(unavailable) ==> r == Refused(StoreUnavailable) && unchanged(this)
      ensures !old(unavailable) ==> (Here(), r) == CarryOut(old(attempts), AttemptSteps.CommitPublication(old(attempts), identity, sid), store, Works)
    {
      hide LedgerValid, Climbs, Lists, Blank;
      if unavailable { return Refused(StoreUnavailable); }
      if !Owns(attempts, identity, sid) { return Refused(OwnerMismatch); }
      var id, e := identity.attemptId, attempts[identity.attemptId];
      var refusal := ImportRefusal(e);
      if refusal.Some? { return Refused(refusal.value); }
      EveryPlanIsGood(attempts, CallCommitPublication(identity, sid));
      var ok := Change(id, e.(request := e.request.(publicationCommitted := true)), store);
      r := if ok then Ok(Done) else Refused(StoreUnavailable);
    }

    method CompleteImport(identity: Identity, sid: string, first: Store, second: Store) returns (r: Result<Answer, Refusal>)
      requires Valid()
      modifies this
      ensures Valid()
      ensures old(unavailable) ==> r == Refused(StoreUnavailable) && unchanged(this)
      ensures !old(unavailable) ==>
                (Here(), r) == CarryOut(old(attempts), AttemptSteps.CompleteImport(old(attempts), identity, sid),
                                       if old(StillHolds(identity, sid)) then first else second, second)
    {
      hide LedgerValid, Climbs, Lists, Blank;
      if unavailable { return Refused(StoreUnavailable); }
      if !Owns(attempts, identity, sid) { return Refused(OwnerMismatch); }
      var id := identity.attemptId;
      CompletionGood(attempts, identity, sid);
      if attempts[id].request.holdForImport {
        var e := attempts[id];
        var ok := Change(id, e.(request := e.request.(holdForImport := false)), first);
        if !ok { return Refused(StoreUnavailable); }
      }
      if Ended(attempts[id].phase) {
        var released := ReleaseReservation(identity, sid, second);
        if released.Refused? { return Refused(StoreUnavailable); }
      }
      r := Ok(Done);
    }

    ghost predicate StillHolds(identity: Identity, sid: string)
      reads this
    {
      Owns(attempts, identity, sid) && attempts[identity.attemptId].request.holdForImport
    }
  }

  lemma LoadIsUnique(disk: seq<Entry>, m: Attempts, n: Attempts)
    requires LoadsTo(disk, m) && LoadsTo(disk, n)
    ensures m == n
  {
    hide StoredValid;
    forall id
      ensures id in m <==> id in n
      ensures id in m && id in n ==> m[id] == n[id]
    {
      if id in m || id in n {
        assert Listed(disk, id);
        var k :| 0 <= k < |disk| && IdOf(disk[k]) == id;
        assert m[IdOf(disk[k])] == Demote(disk[k]) && n[IdOf(disk[k])] == Demote(disk[k]);
      }
    }
    assert m.Keys == n.Keys;
  }

  lemma NothingDemoted(disk: seq<Entry>, m: Attempts)
    requires Loadable(disk) && LoadsTo(disk, m)
    requires !exists k :: 0 <= k < |disk| && Launched(disk[k].phase)
    ensures Lists(disk, m)
  {
    hide StoredValid, Conflict;
    forall k | 0 <= k < |disk|
      ensures IdOf(disk[k]) in m && m[IdOf(disk[k])] == disk[k]
    {
      assert !Launched(disk[k].phase);
      assert m[IdOf(disk[k])] == Demote(disk[k]);
    }
  }
}
