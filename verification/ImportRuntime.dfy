/**
 * The import transaction: its record file and the ledger advance in turn, and every other ledger
 * call, failed save, crash or restart may come between any two of its steps.
 */
module ImportRuntime {
  import opened Common
  import opened AttemptState
  import opened AttemptSteps
  import opened AttemptLedger
  import A = AttemptRuns

  datatype ImportPhase = CreatingStage | StagePrepared | PublicationIntent | Published

  datatype Arguments = Arguments(
    workspaceRoot: string, destination: string, stagePath: Option<string>, commit: string,
    privateHome: Option<string>, expectedStage: Option<string>)

  /** The record file of one attempt. */
  datatype Record = Record(identity: Identity, sid: string, arguments: Arguments, phase: ImportPhase,
                           parent: Option<string>, stage: Option<string>)

  /** Where the command that holds the runtime's gate stands; lost when the process ends. */
  datatype Flight =
    | Idle
    | Acquired(identity: Identity, sid: string, arguments: Arguments)
    | Creating(identity: Identity, sid: string)
    | Checked(identity: Identity, sid: string)
    | Committed(identity: Identity, sid: string)
    | Placed(identity: Identity, sid: string)
    | Recorded(identity: Identity, sid: string)

  /**
   * `native` logs the attempts for which the native publish step ran; `destination` holds those whose
   * stage it moved into place.
   */
  datatype World = World(ledger: AttemptLedger.World, records: map<string, Record>, flight: Flight,
                         native: seq<string>, destination: set<string>)

  datatype Event =
    | Elsewhere(call: Call, first: Store, second: Store)
    | Restart(store: Store)
    | Fail
    | Acquire(identity: Identity, sid: string, arguments: Arguments, store: Store)
    | SaveCreating(save: Store)
    | SavePrepared(parent: string, stage: string, save: Store)
    | Check(identity: Identity, sid: string, arguments: Arguments)
    | Commit(store: Store, save: Store)
    | NativePublish(moved: bool, returned: bool)
    | SavePublished(save: Store)
    | Inspect(identity: Identity, sid: string, save: Store)
    | Complete(first: Store, second: Store)

  /** The ledger calls that only this runtime makes. */
  predicate Reserved(c: Call) { c.CallAcquireImport? || c.CallCommitPublication? || c.CallCompleteImport? }

  function AfterRecord(records: map<string, Record>, r: Record, save: Store): map<string, Record> {
    if save.SaveFails? then records else records[r.identity.attemptId := r]
  }

  function LedgerCall(w: World, c: Call, first: Store, second: Store): (AttemptLedger.World, Result<Answer, Refusal>) {
    A.Next(w.ledger, A.Op(c, first, second))
  }

  predicate OwnsRecord(w: World, identity: Identity, sid: string) {
    && identity.attemptId in w.records
    && w.records[identity.attemptId].identity == identity && w.records[identity.attemptId].sid == sid
  }

  function Next(w: World, ev: Event): World {
    match ev
    case Elsewhere(call, first, second) =>
      if Reserved(call) then w else w.(ledger := LedgerCall(w, call, first, second).0)
    case Restart(store) => w.(ledger := A.Next(w.ledger, A.Restart(store)).0, flight := Idle)
    case Fail => w.(flight := Idle)
    // prepare_import
    case Acquire(identity, sid, arguments, store) =>
      if !w.flight.Idle? || identity.attemptId in w.records then w else
      var (ledger, r) := LedgerCall(w, CallAcquireImport(identity, sid), store, Works);
      w.(ledger := ledger, flight := if r.Ok? then Acquired(identity, sid, arguments) else Idle)
    case SaveCreating(save) =>
      if !w.flight.Acquired? then w else
      var f := w.flight;
      w.(records := AfterRecord(w.records, Record(f.identity, f.sid, f.arguments, CreatingStage, None, None), save),
         flight := if save.Works? then Creating(f.identity, f.sid) else Idle)
    case SavePrepared(parent, stage, save) =>
      if !w.flight.Creating? || !OwnsRecord(w, w.flight.identity, w.flight.sid) then w else
      var f := w.flight;
      var prepared := w.records[f.identity.attemptId].(phase := StagePrepared, parent := Some(parent), stage := Some(stage));
      w.(records := AfterRecord(w.records, prepared, save), flight := Idle)
    // publish_import
    case Check(identity, sid, arguments) =>
      if !w.flight.Idle? || !OwnsRecord(w, identity, sid) then w else
      var record := w.records[identity.attemptId];
      if record.arguments != arguments.(expectedStage := None) || arguments.expectedStage != record.stage
         || !record.phase.StagePrepared? || LedgerCall(w, CallCheckImport(identity, sid), Works, Works).1.Refused?
      then w else w.(flight := Checked(identity, sid))
    case Commit(store, save) =>
      if !w.flight.Checked? || !OwnsRecord(w, w.flight.identity, w.flight.sid) then w else
      var f := w.flight;
      var (ledger, r) := LedgerCall(w, CallCommitPublication(f.identity, f.sid), store, Works);
      if r.Refused? then w.(ledger := ledger, flight := Idle) else
      var intent := w.records[f.identity.attemptId].(phase := PublicationIntent);
      w.(ledger := ledger, records := AfterRecord(w.records, intent, save),
         flight := if save.Works? then Committed(f.identity, f.sid) else Idle)
    case NativePublish(moved, returned) =>
      if !w.flight.Committed? then w else
      var f := w.flight;
      w.(native := w.native + [f.identity.attemptId],
         destination := if moved then w.destination + {f.identity.attemptId} else w.destination,
         flight := if moved && returned then Placed(f.identity, f.sid) else Idle)
    case SavePublished(save) =>
      if !w.flight.Placed? || !OwnsRecord(w, w.flight.identity, w.flight.sid) then w else
      var f := w.flight;
      w.(records := AfterRecord(w.records, w.records[f.identity.attemptId].(phase := Published), save),
         flight := if save.Works? then Recorded(f.identity, f.sid) else Idle)
    // inspect_publication, or a repeated command on a record past the prepared phase
    case Inspect(identity, sid, save) =>
      if !w.flight.Idle? || !OwnsRecord(w, identity, sid) then w else
      var record := w.records[identity.attemptId];
      var observed := identity.attemptId in w.destination;
      if !(record.phase.PublicationIntent? || record.phase.Published?) || !observed then w
      else if record.phase.Published? then w.(flight := Recorded(identity, sid))
      else
        w.(records := AfterRecord(w.records, record.(phase := Published), save),
           flight := if save.Works? then Recorded(identity, sid) else Idle)
    case Complete(first, second) =>
      if !w.flight.Recorded? then w else
      w.(ledger := LedgerCall(w, CallCompleteImport(w.flight.identity, w.flight.sid), first, second).0, flight := Idle)
  }

  // ---- what the ledger keeps for an import ----

  /** The import hold of an attempt; it always comes with the reservation itself. */
  predicate ImportHeld(m: Attempts, id: string) { id in m && m[id].held && m[id].request.holdForImport }

  ghost predicate HoldMeansHeld(m: Attempts) {
    forall id :: id in m && m[id].request.holdForImport ==> m[id].held
  }

  ghost predicate HoldsKept(a: Attempts, b: Attempts, except: Option<string>) {
    forall id :: ImportHeld(a, id) && Some(id) != except ==> ImportHeld(b, id)
  }

  /** The attempt whose hold a call may clear. */
  function Clears(c: Call): Option<string> {
    if c.CallCompleteImport? then Some(c.identity.attemptId) else None
  }

  /** Replacing one entry keeps every hold, unless it drops the entry's own. */
  lemma EntryKeepsHolds(a: Attempts, m: Attempts, id: string, e: Entry, except: Option<string>)
    requires HoldsKept(a, m, except) && HoldMeansHeld(m) && id in m
    requires e.request.holdForImport ==> e.held
    requires ImportHeld(m, id) && Some(id) != except ==> e.request.holdForImport
    ensures HoldsKept(a, m[id := e], except) && HoldMeansHeld(m[id := e])
  {
  }

  lemma CancellationKeepsHolds(m: Attempts, identity: Identity, sid: string)
    requires HoldMeansHeld(m) && RequestCancellation(m, identity, sid).Steps?
    ensures var writes := RequestCancellation(m, identity, sid).writes;
            |writes| <= 2 && forall k :: 0 <= k < |writes| ==> HoldsKept(m, writes[k], None) && HoldMeansHeld(writes[k])
  {
    var id, e := identity.attemptId, m[identity.attemptId];
    assert e.request.holdForImport ==> e.held;
    hide HoldMeansHeld, HoldsKept;
    SameHolds(m, None);
    if e.held {
      var asked := e.(request := e.request.(cancellationRequested := true),
                      phase := if e.phase.Prepared? then LaunchNotStarted else e.phase);
      var m1 := if e.request.cancellationRequested then m else m[id := asked];
      if !e.request.cancellationRequested { EntryKeepsHolds(m, m, id, asked, None); }
      if m1[id].phase.LaunchNotStarted? && !m1[id].request.holdForImport {
        EntryKeepsHolds(m, m1, id, m1[id].(held := false), None);
      }
    }
  }

  lemma CompletionKeepsHolds(m: Attempts, identity: Identity, sid: string)
    requires HoldMeansHeld(m) && CompleteImport(m, identity, sid).Steps?
    ensures var writes := CompleteImport(m, identity, sid).writes;
            |writes| <= 2
            && forall k :: 0 <= k < |writes| ==> HoldsKept(m, writes[k], Some(identity.attemptId)) && HoldMeansHeld(writes[k])
  {
    var id, e := identity.attemptId, m[identity.attemptId];
    var except := Some(id);
    hide HoldMeansHeld, HoldsKept;
    SameHolds(m, except);
    var m1 := if e.request.holdForImport then m[id := e.(request := e.request.(holdForImport := false))] else m;
    if e.request.holdForImport { EntryKeepsHolds(m, m, id, m1[id], except); }
    if m1[id].held { EntryKeepsHolds(m, m1, id, m1[id].(held := false), except); }
  }

  lemma WritesKeepHolds(m: Attempts, c: Call)
    requires HoldMeansHeld(m) && PlanOf(m, c).Steps?
    ensures forall k :: 0 <= k < |PlanOf(m, c).writes| ==>
              HoldsKept(m, PlanOf(m, c).writes[k], Clears(c)) && HoldMeansHeld(PlanOf(m, c).writes[k])
    ensures |PlanOf(m, c).writes| <= 2
  {
    hide RequestValid, HasConflict, SameKey, Conflict, StoredValid, RequestCancellation, CompleteImport;
    if c.CallRequestCancellation? {
      CancellationKeepsHolds(m, c.identity, c.sid);
    } else if c.CallCompleteImport? {
      CompletionKeepsHolds(m, c.identity, c.sid);
    }
  }

  lemma SameHolds(m: Attempts, except: Option<string>)
    ensures HoldsKept(m, m, except)
  {
  }

  lemma CallKeepsHolds(l: AttemptLedger.World, c: Call, first: Store, second: Store)
    requires A.WorldValid(l) && HoldMeansHeld(l.durable)
    ensures var l' := A.Next(l, A.Op(c, first, second)).0;
            HoldsKept(l.durable, l'.durable, Clears(c)) && HoldMeansHeld(l'.durable)
  {
    hide LedgerValid, PlanOf, HoldsKept, HoldMeansHeld, Clears;
    SameHolds(l.durable, Clears(c));
    if l.available && PlanOf(l.mem, c).Steps? {
      WritesKeepHolds(l.mem, c);
    }
  }

  lemma RestartKeepsHolds(l: AttemptLedger.World, store: Store)
    requires HoldMeansHeld(l.durable)
    ensures var l' := A.Next(l, A.Restart(store)).0;
            HoldsKept(l.durable, l'.durable, None) && HoldMeansHeld(l'.durable)
  {
  }

  /** The commit succeeds only on an attempt that was neither committed nor cancelled, and makes it committed on file. */
  lemma CommitOutcome(l: AttemptLedger.World, identity: Identity, sid: string, store: Store)
    requires A.WorldValid(l)
    ensures var (l', r) := A.Next(l, A.Op(CallCommitPublication(identity, sid), store, Works));
            r.Ok? ==>
              && identity.attemptId in l.durable
              && !l.durable[identity.attemptId].request.publicationCommitted
              && !l.durable[identity.attemptId].request.cancellationRequested
              && identity.attemptId in l'.durable && l'.durable[identity.attemptId].request.publicationCommitted
  {
    hide LedgerValid;
  }

  lemma AcquireOutcome(l: AttemptLedger.World, identity: Identity, sid: string, store: Store)
    requires A.WorldValid(l) && HoldMeansHeld(l.durable)
    ensures var (l', r) := A.Next(l, A.Op(CallAcquireImport(identity, sid), store, Works));
            r.Ok? ==> ImportHeld(l'.durable, identity.attemptId)
  {
    hide LedgerValid, HasConflict;
  }

  // ---- the invariant ----

  predicate CommittedOnFile(l: AttemptLedger.World, id: string) {
    id in l.durable && l.durable[id].request.publicationCommitted
  }

  predicate InPhase(records: map<string, Record>, id: string, phase: ImportPhase) {
    id in records && records[id].phase == phase
  }

  predicate Past(records: map<string, Record>, id: string) {
    InPhase(records, id, PublicationIntent) || InPhase(records, id, Published)
  }

  function FlightId(f: Flight): string { if f.Idle? then "" else f.identity.attemptId }

  /** What the command in flight has reached, in terms of files and the native effect. */
  predicate FlightValid(w: World) {
    var id := FlightId(w.flight);
    match w.flight
    case Idle => true
    case Acquired(_, _, _) => id !in w.records && ImportHeld(w.ledger.durable, id)
    case Creating(_, _) => InPhase(w.records, id, CreatingStage)
    case Checked(_, _) => InPhase(w.records, id, StagePrepared)
    case Committed(_, _) => CommittedOnFile(w.ledger, id) && InPhase(w.records, id, PublicationIntent) && id !in w.native
    case Placed(_, _) => InPhase(w.records, id, PublicationIntent) && id in w.destination
    case Recorded(_, _) => InPhase(w.records, id, Published)
  }

  ghost predicate NoRepeats(ids: seq<string>) {
    forall i, j :: 0 <= i < j < |ids| ==> ids[i] != ids[j]
  }

  ghost predicate Consistent(w: World) {
    && A.WorldValid(w.ledger) && HoldMeansHeld(w.ledger.durable)
    && (forall id :: id in w.records ==> w.records[id].identity.attemptId == id)
    // the native step ran at most once each, only past both durable marks
    && NoRepeats(w.native)
    && (forall id :: id in w.native ==> CommittedOnFile(w.ledger, id) && Past(w.records, id))
    && w.destination <= (set id | id in w.native)
    // a record says published only when the stage is in place, and until then the reservation is held
    && (forall id :: id in w.records && w.records[id].phase.Published? ==> id in w.destination)
    && (forall id :: id in w.records && !w.records[id].phase.Published? ==> ImportHeld(w.ledger.durable, id))
    && FlightValid(w)
  }

  /** A change of the ledger that loses no mark and clears no hold an unpublished record relies on. */
  lemma LedgerChangeKeeps(w: World, l: AttemptLedger.World, except: Option<string>)
    requires Consistent(w) && A.WorldValid(l) && HoldMeansHeld(l.durable)
    requires A.LaterTable(w.ledger.durable, l.durable) && HoldsKept(w.ledger.durable, l.durable, except)
    requires except.Some? ==> InPhase(w.records, except.value, Published)
    ensures Consistent(w.(ledger := l)) && Consistent(w.(ledger := l, flight := Idle))
  {
    hide A.WorldValid, HoldMeansHeld, NoRepeats, ImportHeld;
    forall id | CommittedOnFile(w.ledger, id)
      ensures CommittedOnFile(l, id)
    {
      assert A.Later(w.ledger.durable[id], l.durable[id]);
    }
  }

  lemma LedgerCallKeeps(w: World, c: Call, first: Store, second: Store)
    requires Consistent(w)
    requires c.CallCompleteImport? ==> InPhase(w.records, c.identity.attemptId, Published)
    ensures Consistent(w.(ledger := LedgerCall(w, c, first, second).0))
    ensures Consistent(w.(ledger := LedgerCall(w, c, first, second).0, flight := Idle))
  {
    hide A.Next;
    A.NextKeeps(w.ledger, A.Op(c, first, second));
    CallKeepsHolds(w.ledger, c, first, second);
    LedgerChangeKeeps(w, LedgerCall(w, c, first, second).0, Clears(c));
  }

  /** One save of a record: a mark already relied on stays, and a record is published only in place. */
  lemma RecordWriteKeeps(w: World, r: Record, save: Store, f: Flight)
    requires Consistent(w)
    requires r.identity.attemptId in w.native ==> r.phase.PublicationIntent? || r.phase.Published?
    requires r.phase.Published? ==> r.identity.attemptId in w.destination
    requires !r.phase.Published? ==> ImportHeld(w.ledger.durable, r.identity.attemptId)
    requires FlightValid(w.(records := AfterRecord(w.records, r, save), flight := f))
    ensures Consistent(w.(records := AfterRecord(w.records, r, save), flight := f))
  {
    hide A.WorldValid, HoldMeansHeld, NoRepeats, ImportHeld, FlightValid;
  }

  lemma PrepareStepKeeps(w: World, ev: Event)
    requires Consistent(w) && (ev.SaveCreating? || ev.SavePrepared? || ev.Check? || ev.Fail?)
    ensures Consistent(Next(w, ev))
  {
    hide A.WorldValid, LedgerCall, HoldMeansHeld, NoRepeats, ImportHeld;
    if ev.SaveCreating? && w.flight.Acquired? {
      var f := w.flight;
      var r := Record(f.identity, f.sid, f.arguments, CreatingStage, None, None);
      RecordWriteKeeps(w, r, ev.save, if ev.save.Works? then Creating(f.identity, f.sid) else Idle);
    } else if ev.SavePrepared? && w.flight.Creating? && OwnsRecord(w, w.flight.identity, w.flight.sid) {
      var r := w.records[w.flight.identity.attemptId].(phase := StagePrepared, parent := Some(ev.parent), stage := Some(ev.stage));
      RecordWriteKeeps(w, r, ev.save, Idle);
    }
  }

  lemma PublishedStepKeeps(w: World, ev: Event)
    requires Consistent(w) && ev.SavePublished?
    ensures Consistent(Next(w, ev))
  {
    hide A.WorldValid, LedgerCall, HoldMeansHeld, NoRepeats, ImportHeld;
    if w.flight.Placed? && OwnsRecord(w, w.flight.identity, w.flight.sid) {
      var f := w.flight;
      RecordWriteKeeps(w, w.records[f.identity.attemptId].(phase := Published), ev.save,
                       if ev.save.Works? then Recorded(f.identity, f.sid) else Idle);
    }
  }

  lemma InspectStepKeeps(w: World, ev: Event)
    requires Consistent(w) && ev.Inspect?
    ensures Consistent(Next(w, ev))
  {
    hide A.WorldValid, LedgerCall, HoldMeansHeld, NoRepeats, ImportHeld;
    if OwnsRecord(w, ev.identity, ev.sid) && ev.identity.attemptId in w.destination
       && w.records[ev.identity.attemptId].phase.PublicationIntent?
    {
      RecordWriteKeeps(w, w.records[ev.identity.attemptId].(phase := Published), ev.save,
                       if ev.save.Works? then Recorded(ev.identity, ev.sid) else Idle);
    }
  }

  lemma NativeStepKeeps(w: World, ev: Event)
    requires Consistent(w) && ev.NativePublish?
    ensures Consistent(Next(w, ev))
  {
    hide A.WorldValid, HoldMeansHeld, ImportHeld, LedgerCall;
  }

  lemma CommitKeeps(w: World, ev: Event)
    requires Consistent(w) && ev.Commit?
    ensures Consistent(Next(w, ev))
  {
    hide A.WorldValid, A.Next, HoldMeansHeld, NoRepeats, ImportHeld, A.LaterTable;
    if w.flight.Checked? && OwnsRecord(w, w.flight.identity, w.flight.sid) {
      var f := w.flight;
      var id := f.identity.attemptId;
      LedgerCallKeeps(w, CallCommitPublication(f.identity, f.sid), ev.store, Works);
      CommitOutcome(w.ledger, f.identity, f.sid, ev.store);
      var (ledger, r) := LedgerCall(w, CallCommitPublication(f.identity, f.sid), ev.store, Works);
      if r.Ok? {
        assert id !in w.native;
        RecordWriteKeeps(w.(ledger := ledger, flight := Idle), w.records[id].(phase := PublicationIntent), ev.save,
                         if ev.save.Works? then Committed(f.identity, f.sid) else Idle);
      }
    }
  }

  lemma AcquireKeeps(w: World, ev: Event)
    requires Consistent(w) && ev.Acquire?
    ensures Consistent(Next(w, ev))
  {
    hide A.WorldValid, A.Next, HoldMeansHeld, NoRepeats, ImportHeld;
    if w.flight.Idle? && ev.identity.attemptId !in w.records {
      LedgerCallKeeps(w, CallAcquireImport(ev.identity, ev.sid), ev.store, Works);
      AcquireOutcome(w.ledger, ev.identity, ev.sid, ev.store);
    }
  }

  lemma NextKeeps(w: World, ev: Event)
    requires Consistent(w)
    ensures Consistent(Next(w, ev))
  {
    match ev
    case Elsewhere(call, first, second) =>
      if !Reserved(call) { LedgerCallKeeps(w, call, first, second); }
    case Restart(store) =>
      A.NextKeeps(w.ledger, A.Restart(store));
      RestartKeepsHolds(w.ledger, store);
      LedgerChangeKeeps(w, A.Next(w.ledger, A.Restart(store)).0, None);
    case Acquire(_, _, _, _) => AcquireKeeps(w, ev);
    case Commit(_, _) => CommitKeeps(w, ev);
    case NativePublish(_, _) => NativeStepKeeps(w, ev);
    case Complete(first, second) =>
      if w.flight.Recorded? {
        LedgerCallKeeps(w, CallCompleteImport(w.flight.identity, w.flight.sid), first, second);
      }
    case SavePublished(_) => PublishedStepKeeps(w, ev);
    case Inspect(_, _, _) => InspectStepKeeps(w, ev);
    case _ => PrepareStepKeeps(w, ev);
  }

  // ---- runs ----

  datatype Run = Run(worlds: seq<World>, events: seq<Event>)

  ghost predicate Legal(r: Run) {
    && |r.worlds| == |r.events| + 1
    && r.worlds[0] == World.World(AttemptLedger.World(map[], map[], true), map[], Idle, [], {})
    && forall i :: 0 <= i < |r.events| ==> r.worlds[i + 1] == Next(r.worlds[i], r.events[i])
  }

  lemma {:induction false} ReachableIsConsistent(r: Run, j: nat)
    requires Legal(r) && j < |r.worlds|
    ensures Consistent(r.worlds[j])
  {
    hide Next, Consistent;
    if j == 0 {
      EmptyIsConsistent();
    } else {
      ReachableIsConsistent(r, j - 1);
      NextKeeps(r.worlds[j - 1], r.events[j - 1]);
    }
  }

  lemma EmptyIsConsistent()
    ensures Consistent(World.World(AttemptLedger.World(map[], map[], true), map[], Idle, [], {}))
  {
  }

  /** Event `i` runs the native publish step for attempt `id`. */
  predicate PublishesAt(r: Run, i: nat, id: string)
    requires i < |r.events| < |r.worlds|
  {
    r.events[i].NativePublish? && r.worlds[i].flight.Committed? && FlightId(r.worlds[i].flight) == id
  }

  /** Event `i` is the commit that takes attempt `id` past the point of no return. */
  predicate CommitsAt(r: Run, i: nat, id: string)
    requires i < |r.events| < |r.worlds|
  {
    r.events[i].Commit? && r.worlds[i].flight.Checked? && FlightId(r.worlds[i].flight) == id
    && r.worlds[i + 1].flight.Committed? && FlightId(r.worlds[i + 1].flight) == id
  }

  /** When the native step runs, the ledger's mark and the intent are both on file, and it has not run before. */
  lemma PublishesOnlyPastBothMarks(r: Run, i: nat, id: string)
    requires Legal(r) && i < |r.events| && PublishesAt(r, i, id)
    ensures CommittedOnFile(r.worlds[i].ledger, id)
    ensures InPhase(r.worlds[i].records, id, PublicationIntent)
    ensures id !in r.worlds[i].native
    ensures r.worlds[i + 1].native == r.worlds[i].native + [id]
  {
    hide A.WorldValid, HoldMeansHeld, NoRepeats, ImportHeld, LedgerCall;
    ReachableIsConsistent(r, i);
  }

  lemma {:induction false} NativeLogGrows(r: Run, i: nat, j: nat)
    requires Legal(r) && i <= j < |r.worlds|
    ensures r.worlds[i].native <= r.worlds[j].native
    decreases j
  {
    hide LedgerCall;
    if i < j {
      NativeLogGrows(r, i, j - 1);
    }
  }

  lemma PublishedStaysLogged(r: Run, i: nat, j: nat, id: string)
    requires Legal(r) && i < j < |r.worlds| && PublishesAt(r, i, id)
    ensures id in r.worlds[j].native
  {
    hide Next;
    PublishesOnlyPastBothMarks(r, i, id);
    NativeLogGrows(r, i + 1, j);
    assert r.worlds[i + 1].native[|r.worlds[i].native|] == id;
  }

  /** Through any crashes, retries and restarts the native publish step runs at most once per attempt. */
  lemma PublishesAtMostOnce(r: Run, i: nat, j: nat, id: string)
    requires Legal(r) && i < j < |r.events| && PublishesAt(r, i, id)
    ensures !PublishesAt(r, j, id)
  {
    hide Next;
    if PublishesAt(r, j, id) {
      PublishesOnlyPastBothMarks(r, j, id);
      PublishedStaysLogged(r, i, j, id);
    }
  }

  lemma CommittedComesFromCommit(w: World, ev: Event)
    requires Next(w, ev).flight.Committed?
    ensures Next(w, ev).flight == w.flight
            || (ev.Commit? && w.flight.Checked? && FlightId(w.flight) == FlightId(Next(w, ev).flight))
  {
    hide LedgerCall;
  }

  ghost predicate CommittedBefore(r: Run, j: nat, id: string, i: nat)
    requires |r.worlds| == |r.events| + 1
  {
    i < j <= |r.events| && CommitsAt(r, i, id)
  }

  lemma {:induction false} CommitPrecedes(r: Run, j: nat) returns (i: nat)
    requires Legal(r) && j <= |r.events| && r.worlds[j].flight.Committed?
    ensures CommittedBefore(r, j, FlightId(r.worlds[j].flight), i)
    decreases j
  {
    hide Next;
    CommittedComesFromCommit(r.worlds[j - 1], r.events[j - 1]);
    if r.worlds[j].flight == r.worlds[j - 1].flight {
      i := CommitPrecedes(r, j - 1);
    } else {
      i := j - 1;
    }
  }

  lemma {:induction false} LedgerIsLater(r: Run, i: nat, j: nat)
    requires Legal(r) && i <= j < |r.worlds|
    ensures A.LaterTable(r.worlds[i].ledger.durable, r.worlds[j].ledger.durable)
    decreases j
  {
    hide Next, A.LaterTable, Consistent;
    if i == j {
      A.SameIsLater(r.worlds[i].ledger.durable);
    } else {
      LedgerIsLater(r, i, j - 1);
      ReachableIsConsistent(r, j - 1);
      LedgerStepIsLater(r.worlds[j - 1], r.events[j - 1]);
      A.LaterTransitive(r.worlds[i].ledger.durable, r.worlds[j - 1].ledger.durable, r.worlds[j].ledger.durable);
    }
  }

  lemma LedgerStepIsLater(w: World, ev: Event)
    requires Consistent(w)
    ensures A.LaterTable(w.ledger.durable, Next(w, ev).ledger.durable)
  {
    hide A.Next, A.WorldValid, A.LaterTable, HoldMeansHeld, NoRepeats, ImportHeld;
    A.SameIsLater(w.ledger.durable);
    match ev
    case Elsewhere(call, first, second) => A.NextKeeps(w.ledger, A.Op(call, first, second));
    case Restart(store) => A.NextKeeps(w.ledger, A.Restart(store));
    case Acquire(identity, sid, _, store) => A.NextKeeps(w.ledger, A.Op(CallAcquireImport(identity, sid), store, Works));
    case Commit(store, _) =>
      if w.flight.Checked? { A.NextKeeps(w.ledger, A.Op(CallCommitPublication(w.flight.identity, w.flight.sid), store, Works)); }
    case Complete(first, second) =>
      if w.flight.Recorded? { A.NextKeeps(w.ledger, A.Op(CallCompleteImport(w.flight.identity, w.flight.sid), first, second)); }
    case _ =>
  }

  predicate CancelledOnFile(l: AttemptLedger.World, id: string) {
    id in l.durable && l.durable[id].request.cancellationRequested
  }

  /**
   * Every native publish was committed earlier, and up to that commit no cancellation of the attempt
   * had ever been recorded.
   */
  lemma NoPublishAfterEarlierCancellation(r: Run, j: nat, id: string) returns (i: nat)
    requires Legal(r) && j < |r.events| && PublishesAt(r, j, id)
    ensures CommittedBefore(r, j, id, i)
    ensures forall k :: 0 <= k <= i ==> !CancelledOnFile(r.worlds[k].ledger, id)
  {
    hide Next, Consistent;
    i := CommitPrecedes(r, j);
    ReachableIsConsistent(r, i);
    CommitNotCancelled(r.worlds[i], r.events[i]);
    forall k | 0 <= k <= i
      ensures !CancelledOnFile(r.worlds[k].ledger, id)
    {
      CancellationStays(r, k, i, id);
    }
  }

  lemma CancellationStays(r: Run, k: nat, i: nat, id: string)
    requires Legal(r) && k <= i < |r.worlds|
    ensures CancelledOnFile(r.worlds[k].ledger, id) ==> CancelledOnFile(r.worlds[i].ledger, id)
  {
    hide Next;
    LedgerIsLater(r, k, i);
    if CancelledOnFile(r.worlds[k].ledger, id) {
      assert A.Later(r.worlds[k].ledger.durable[id], r.worlds[i].ledger.durable[id]);
    }
  }

  lemma CommitNotCancelled(w: World, ev: Event)
    requires Consistent(w) && ev.Commit? && w.flight.Checked? && Next(w, ev).flight.Committed?
    ensures !CancelledOnFile(w.ledger, FlightId(w.flight))
  {
    hide A.WorldValid, A.Next, HoldMeansHeld, NoRepeats, ImportHeld;
    var f := w.flight;
    CommitOutcome(w.ledger, f.identity, f.sid, ev.store);
    assert LedgerCall(w, CallCommitPublication(f.identity, f.sid), ev.store, Works).1.Ok?;
  }

  lemma StepPublishes(w: World, ev: Event, id: string)
    requires Consistent(w) && !InPhase(w.records, id, Published) && InPhase(Next(w, ev).records, id, Published)
    ensures ev.Inspect? || ev.SavePublished?
    ensures InPhase(w.records, id, PublicationIntent) && id in w.destination
    ensures var w' := Next(w, ev);
            w'.native == w.native && w'.ledger == w.ledger && w'.records == w.records[id := w.records[id].(phase := Published)]
  {
    hide A.WorldValid, HoldMeansHeld, NoRepeats, ImportHeld, LedgerCall;
  }

  lemma {:induction false} LoggedWasPublished(r: Run, i: nat, id: string) returns (x: nat)
    requires Legal(r) && i < |r.worlds| && id in r.worlds[i].native
    ensures x < i && PublishesAt(r, x, id)
    decreases i
  {
    if id in r.worlds[i - 1].native {
      hide Next;
      x := LoggedWasPublished(r, i - 1, id);
    } else {
      hide LedgerCall;
      x := i - 1;
    }
  }

  /**
   * A record comes to say published, whether by inspection or by the command, only from the intent, with
   * the stage in place and the native step run at an earlier event; nothing else changes with it.
   */
  lemma PublishedOnlyWhatWasDone(r: Run, i: nat, id: string) returns (x: nat)
    requires Legal(r) && i < |r.events|
    requires !InPhase(r.worlds[i].records, id, Published) && InPhase(r.worlds[i + 1].records, id, Published)
    ensures InPhase(r.worlds[i].records, id, PublicationIntent) && id in r.worlds[i].destination
    ensures r.worlds[i + 1].native == r.worlds[i].native && r.worlds[i + 1].ledger == r.worlds[i].ledger
    ensures r.worlds[i + 1].records == r.worlds[i].records[id := r.worlds[i].records[id].(phase := Published)]
    ensures x < i && PublishesAt(r, x, id)
  {
    hide Next, A.WorldValid, HoldMeansHeld, NoRepeats, ImportHeld;
    ReachableIsConsistent(r, i);
    StepPublishes(r.worlds[i], r.events[i], id);
    x := LoggedWasPublished(r, i, id);
  }

  /** The exclusive reservation of an import is kept, whatever fails, until its publication is on record. */
  lemma ReservationKeptUntilPublished(r: Run, j: nat, id: string)
    requires Legal(r) && j < |r.worlds| && id in r.worlds[j].records
    ensures ImportHeld(r.worlds[j].ledger.durable, id) || (r.worlds[j].records[id].phase.Published? && id in r.worlds[j].destination)
  {
    hide A.WorldValid, HoldMeansHeld, NoRepeats, ImportHeld, Next;
    ReachableIsConsistent(r, j);
  }
}
