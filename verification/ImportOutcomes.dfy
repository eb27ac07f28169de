/** What the import commands bring about when nothing fails, and exactly when. */
module ImportOutcomes {
  import opened Common
  import opened AttemptState
  import opened AttemptSteps
  import opened AttemptLedger
  import A = AttemptRuns
  import opened AttemptAnswers
  import opened ImportRuntime
  import opened ImportTransactionRuntime

  const NO_FAULTS := PublishFaults(true, Works, Works, true, true, Works, Works, Works)

  /** A launched attempt of the caller's own that holds the machine for an import, not cancelled and not yet committed. */
  predicate MayPublish(m: Attempts, identity: Identity, sid: string) {
    && Mine(m, identity, sid)
    && var e := m[identity.attemptId];
       && e.held && e.request.holdForImport && (e.phase == DispatchCommitted || e.phase == Running)
       && !e.request.cancellationRequested && !e.request.publicationCommitted
  }

  /** The record of the caller's own, prepared for exactly these arguments. */
  predicate PreparedFor(w: ImportRuntime.World, identity: Identity, sid: string, arguments: Arguments) {
    && identity.attemptId in w.records
    && var r := w.records[identity.attemptId];
       && r.identity == identity && r.sid == sid && r.phase == StagePrepared
       && r.arguments == arguments.(expectedStage := None) && r.stage == arguments.expectedStage
  }

  /** A ledger that answers holds what is on its file. */
  lemma AnsweringLedger(w: ImportRuntime.World)
    requires Consistent(w) && w.ledger.available
    ensures w.ledger == AttemptLedger.World(w.ledger.durable, w.ledger.durable, true)
  {
    hide LedgerValid, HoldMeansHeld, NoRepeats, ImportHeld, FlightValid;
  }

  lemma WorkingCall(m: Attempts, c: Call)
    ensures var (l, r) := A.Next(AttemptLedger.World(m, m, true), A.Op(c, Works, Works));
            l == AttemptLedger.World(Told(m, c).0, Told(m, c).0, true) && r == Told(m, c).1
  {
    hide PlanOf;
    NeverThree(m, c);
  }

  lemma NeverThree(m: Attempts, c: Call)
    ensures PlanOf(m, c).Steps? ==> |PlanOf(m, c).writes| <= 2
  {
    hide RequestValid, HasConflict, SameKey;
  }

  function Marked(e: Entry): Entry { e.(request := e.request.(publicationCommitted := true, holdForImport := false)) }

  lemma CheckOutcome(w: ImportRuntime.World, identity: Identity, sid: string, arguments: Arguments)
    requires Consistent(w) && w.flight.Idle? && w.ledger.available && PreparedFor(w, identity, sid, arguments)
    ensures Next(w, Check(identity, sid, arguments))
            == if MayPublish(w.ledger.durable, identity, sid) then w.(flight := Checked(identity, sid)) else w
  {
    hide Consistent, Told, A.Next;
    AnsweringLedger(w);
    PublicationAnswer(w.ledger.durable, identity, sid);
    WorkingCall(w.ledger.durable, CallCheckImport(identity, sid));
  }

  lemma CommitStepOutcome(w: ImportRuntime.World, identity: Identity, sid: string, m: Attempts)
    requires w.ledger == AttemptLedger.World(m, m, true) && w.flight == Checked(identity, sid) && OwnsRecord(w, identity, sid)
    requires MayPublish(m, identity, sid)
    ensures var id := identity.attemptId;
            var m' := m[id := m[id].(request := m[id].request.(publicationCommitted := true))];
            Next(w, Commit(Works, Works))
            == w.(ledger := AttemptLedger.World(m', m', true), records := w.records[id := w.records[id].(phase := PublicationIntent)],
                  flight := Committed(identity, sid))
  {
    OwnRecordKey(w, identity, sid);
    PublicationAnswer(m, identity, sid);
    WorkingCall(m, CallCommitPublication(identity, sid));
    hide Told, A.Next;
  }

  lemma OwnRecordKey(w: ImportRuntime.World, identity: Identity, sid: string)
    requires OwnsRecord(w, identity, sid)
    ensures w.records[identity.attemptId].identity.attemptId == identity.attemptId
  {
  }

  lemma LastSteps(w: ImportRuntime.World, identity: Identity, sid: string, m: Attempts)
    requires w.ledger == AttemptLedger.World(m, m, true) && w.flight == Committed(identity, sid) && OwnsRecord(w, identity, sid)
    requires Mine(m, identity, sid) && (m[identity.attemptId].phase == DispatchCommitted || m[identity.attemptId].phase == Running)
    ensures var id := identity.attemptId;
            var m' := m[id := m[id].(request := m[id].request.(holdForImport := false))];
            Next(Next(Next(w, NativePublish(true, true)), SavePublished(Works)), Event.Complete(Works, Works))
            == w.(ledger := AttemptLedger.World(m', m', true), records := w.records[id := w.records[id].(phase := Published)],
                  flight := Idle, native := w.native + [id], destination := w.destination + {id})
  {
    var id := identity.attemptId;
    OwnRecordKey(w, identity, sid);
    var w1 := w.(flight := Placed(identity, sid), native := w.native + [id], destination := w.destination + {id});
    assert Next(w, NativePublish(true, true)) == w1 by { hide LedgerCall; }
    var w2 := w1.(records := w.records[id := w.records[id].(phase := Published)], flight := Recorded(identity, sid));
    assert Next(w1, SavePublished(Works)) == w2 by { hide LedgerCall; }
    CompleteOutcome(w2, identity, sid, m);
    hide Next;
  }

  lemma CompleteOutcome(w: ImportRuntime.World, identity: Identity, sid: string, m: Attempts)
    requires w.ledger == AttemptLedger.World(m, m, true) && w.flight == Recorded(identity, sid) && Mine(m, identity, sid)
    ensures var w' := Next(w, Event.Complete(Works, Works));
            && w' == w.(ledger := w'.ledger, flight := Idle) && identity.attemptId in w'.ledger.durable
            && !w'.ledger.durable[identity.attemptId].request.holdForImport
    ensures m[identity.attemptId].phase == DispatchCommitted || m[identity.attemptId].phase == Running ==>
            var m' := m[identity.attemptId := m[identity.attemptId].(request := m[identity.attemptId].request.(holdForImport := false))];
            Next(w, Event.Complete(Works, Works)) == w.(ledger := AttemptLedger.World(m', m', true), flight := Idle)
  {
    CompletionAnswer(m, identity, sid);
    WorkingCall(m, CallCompleteImport(identity, sid));
    var id := identity.attemptId;
    if m[id].phase == DispatchCommitted || m[id].phase == Running { OnlyTheHoldGoes(m, identity, sid); }
    hide Told, A.Next;
  }

  lemma OnlyTheHoldGoes(m: Attempts, identity: Identity, sid: string)
    requires Mine(m, identity, sid) && (m[identity.attemptId].phase == DispatchCommitted || m[identity.attemptId].phase == Running)
    ensures var id := identity.attemptId;
            Told(m, CallCompleteImport(identity, sid)).0 == m[id := m[id].(request := m[id].request.(holdForImport := false))]
  {
  }

  lemma MayPublishIsMine(m: Attempts, identity: Identity, sid: string)
    requires MayPublish(m, identity, sid)
    ensures var id := identity.attemptId;
            var m' := m[id := m[id].(request := m[id].request.(publicationCommitted := true))];
            Mine(m', identity, sid) && (m'[id].phase == DispatchCommitted || m'[id].phase == Running)
  {
  }

  /**
   * With nothing failing, publishing a prepared import runs the native step if and only if the attempt may
   * publish. Then the stage is in place, the record says published, and on the ledger's file the attempt is
   * marked committed and its import hold is cleared; otherwise nothing at all changes.
   */
  lemma PublishOutcome(w: ImportRuntime.World, identity: Identity, sid: string, arguments: Arguments)
    requires Consistent(w) && w.flight.Idle? && w.ledger.available && PreparedFor(w, identity, sid, arguments)
    ensures var id, m := identity.attemptId, w.ledger.durable;
            var after := After(w, PublishEvents(w, identity, sid, arguments, NO_FAULTS));
            && (after.native == w.native + [id] <==> MayPublish(m, identity, sid))
            && (MayPublish(m, identity, sid) ==>
                  after == w.(ledger := AttemptLedger.World(m[id := Marked(m[id])], m[id := Marked(m[id])], true),
                              records := w.records[id := w.records[id].(phase := Published)],
                              native := w.native + [id], destination := w.destination + {id}))
            && (!MayPublish(m, identity, sid) ==> after == w)
  {
    hide Consistent, Next, After;
    var id, m := identity.attemptId, w.ledger.durable;
    AnsweringLedger(w);
    CheckOutcome(w, identity, sid, arguments);
    var a, b, c, d, e := Check(identity, sid, arguments), Commit(Works, Works), NativePublish(true, true), SavePublished(Works), Event.Complete(Works, Works);
    AfterFive(w, a, b, c, d, e);
    hide PreparedFor, FlightId;
    if MayPublish(m, identity, sid) {
      var w1 := w.(flight := Checked(identity, sid));
      CommitStepOutcome(w1, identity, sid, m);
      var m1 := m[id := m[id].(request := m[id].request.(publicationCommitted := true))];
      var w2 := w1.(ledger := AttemptLedger.World(m1, m1, true), records := w.records[id := w.records[id].(phase := PublicationIntent)],
                    flight := Committed(identity, sid));
      MayPublishIsMine(m, identity, sid);
      LastSteps(w2, identity, sid, m1);
      assert m1[id := Marked(m[id])] == m[id := Marked(m[id])];
      assert w2.records[id := w.records[id].(phase := Published)] == w.records[id := w.records[id].(phase := Published)];
    } else {
      IdleRest(w, b, c, d, e);
    }
  }

  lemma InspectStep(w: ImportRuntime.World, identity: Identity, sid: string)
    requires w.flight.Idle? && OwnsRecord(w, identity, sid) && Past(w.records, identity.attemptId) && identity.attemptId in w.destination
    ensures var id := identity.attemptId;
            Next(w, Event.Inspect(identity, sid, Works))
            == w.(records := w.records[id := w.records[id].(phase := Published)], flight := Recorded(identity, sid))
  {
    hide LedgerCall;
    var r := w.records[identity.attemptId];
    if r.phase.Published? {
      assert r.(phase := Published) == r;
      assert w.records[identity.attemptId := r] == w.records;
    }
  }

  /** Inspecting an intent whose stage is in place records it and clears the hold, with no native step. */
  lemma InspectOutcome(w: ImportRuntime.World, identity: Identity, sid: string)
    requires Consistent(w) && w.flight.Idle? && w.ledger.available && OwnsRecord(w, identity, sid)
    requires Past(w.records, identity.attemptId) && identity.attemptId in w.destination && Mine(w.ledger.durable, identity, sid)
    ensures var id, after := identity.attemptId, After(w, InspectEvents(identity, sid, Works, Works, Works));
            && after.records == w.records[id := w.records[id].(phase := Published)] && after.native == w.native
            && after.destination == w.destination && after.flight.Idle?
            && id in after.ledger.durable && !after.ledger.durable[id].request.holdForImport
  {
    hide Consistent, After;
    var id := identity.attemptId;
    AnsweringLedger(w);
    OwnRecordKey(w, identity, sid);
    AfterTwo(w, Event.Inspect(identity, sid, Works), Event.Complete(Works, Works));
    var w1 := w.(records := w.records[id := w.records[id].(phase := Published)], flight := Recorded(identity, sid));
    InspectStep(w, identity, sid);
    hide Next;
    CompleteOutcome(w1, identity, sid, w.ledger.durable);
  }

  lemma StageSteps(w: ImportRuntime.World, identity: Identity, sid: string, arguments: Arguments, parent: string, stage: string)
    requires w.flight == Acquired(identity, sid, arguments)
    ensures Next(Next(w, SaveCreating(Works)), SavePrepared(parent, stage, Works))
            == w.(records := w.records[identity.attemptId := Record(identity, sid, arguments, StagePrepared, Some(parent), Some(stage))],
                  flight := Idle)
  {
    hide LedgerCall;
    var creating := Record(identity, sid, arguments, CreatingStage, None, None);
    var w2 := w.(records := w.records[identity.attemptId := creating], flight := Creating(identity, sid));
    assert Next(w, SaveCreating(Works)) == w2;
    var prepared := creating.(phase := StagePrepared, parent := Some(parent), stage := Some(stage));
    assert w2.records[identity.attemptId := prepared] == w.records[identity.attemptId := prepared];
  }

  /**
   * With nothing failing, preparing an import takes the machine and files a prepared record if and only if the
   * attempt is the caller's, launched, held, not cancelled, and no other attempt holds anything (or it holds
   * the machine already); otherwise nothing changes.
   */
  lemma PrepareOutcome(w: ImportRuntime.World, identity: Identity, sid: string, arguments: Arguments, parent: string, stage: string)
    requires Consistent(w) && w.flight.Idle? && w.ledger.available && identity.attemptId !in w.records
    ensures var id, m := identity.attemptId, w.ledger.durable;
            var after := After(w, PrepareEvents(identity, sid, arguments, PrepareFaults(Works, Works, Some((parent, stage)), Works)));
            var open := Mine(m, identity, sid) && !m[id].request.cancellationRequested;
            var takes := open && !m[id].request.holdForImport && m[id].held
                         && (m[id].phase == DispatchCommitted || m[id].phase == Running) && AloneHolding(m, id);
            if takes || (open && m[id].request.holdForImport)
            then && after.records == w.records[id := Record(identity, sid, arguments, StagePrepared, Some(parent), Some(stage))]
                 && after.native == w.native && after.flight.Idle? && id in after.ledger.durable
                 && after.ledger.durable[id].request.holdForImport
            else after == w
  {
    hide Consistent, Told, A.Next, After, AloneHolding;
    var id, m := identity.attemptId, w.ledger.durable;
    AnsweringLedger(w);
    AcquireAnswer(m, identity, sid);
    var call := CallAcquireImport(identity, sid);
    WorkingCall(m, call);
    var a, b, c := Acquire(identity, sid, arguments, Works), SaveCreating(Works), SavePrepared(parent, stage, Works);
    AfterThree(w, a, b, c);
    var w1 := w.(ledger := AttemptLedger.World(Told(m, call).0, Told(m, call).0, true),
                 flight := if Told(m, call).1.Ok? then Acquired(identity, sid, arguments) else Idle);
    assert Next(w, a) == w1;
    hide Next;
    if Told(m, call).1.Ok? {
      StageSteps(w1, identity, sid, arguments, parent, stage);
    } else {
      IdleRest(w1, b, c, c, c);
    }
  }

  /** A prepared record is published only for its own caller and arguments: any other command changes nothing. */
  lemma OthersPublishNothing(w: ImportRuntime.World, identity: Identity, sid: string, arguments: Arguments, faults: PublishFaults)
    requires w.flight.Idle? && identity.attemptId in w.records && w.records[identity.attemptId].phase == StagePrepared
    requires !PreparedFor(w, identity, sid, arguments)
    ensures After(w, PublishEvents(w, identity, sid, arguments, faults)) == w
  {
    hide After;
    var b := if faults.validated then Commit(faults.store, faults.intent) else Fail;
    var c, d, e := NativePublish(faults.moved, faults.returned), SavePublished(faults.published), Event.Complete(faults.first, faults.second);
    AfterFive(w, Check(identity, sid, arguments), b, c, d, e);
    assert Next(w, Check(identity, sid, arguments)) == w by { hide LedgerCall; }
    hide Next;
    IdleRest(w, b, c, d, e);
  }

  /** Nobody but the owner of a record completes it by looking, and not before its stage is in place. */
  lemma OthersCompleteNothing(w: ImportRuntime.World, identity: Identity, sid: string, save: Store, first: Store, second: Store)
    requires w.flight.Idle? && identity.attemptId in w.records
    requires var r := w.records[identity.attemptId];
             r.identity != identity || r.sid != sid || identity.attemptId !in w.destination || r.phase == CreatingStage || r.phase == StagePrepared
    ensures After(w, InspectEvents(identity, sid, save, first, second)) == w
  {
    hide After;
    AfterTwo(w, Event.Inspect(identity, sid, save), Event.Complete(first, second));
    assert Next(w, Event.Inspect(identity, sid, save)) == w by { hide LedgerCall; }
    hide Next;
    IdleStays(w, Event.Complete(first, second));
  }
}
