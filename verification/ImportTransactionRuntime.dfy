/** The import commands as the service runs them, one save or ledger call after another. */
module ImportTransactionRuntime {
  import opened Common
  import opened AttemptState
  import opened AttemptSteps
  import opened AttemptLedger
  import opened ImportRuntime

  /** What the disk, the ledger's store and the native stage do during one `prepare_import`. */
  datatype PrepareFaults = PrepareFaults(store: Store, creating: Store, made: Option<(string, string)>, prepared: Store)

  /** The same for `publish_import`; `moved` and `returned` are the native publish step's effect and return. */
  datatype PublishFaults = PublishFaults(validated: bool, store: Store, intent: Store, moved: bool, returned: bool,
                                         published: Store, first: Store, second: Store)

  function After(w: ImportRuntime.World, events: seq<Event>): ImportRuntime.World
    decreases |events|
  {
    if events == [] then w else After(Next(w, events[0]), events[1..])
  }

  lemma AfterOne(w: ImportRuntime.World, a: Event)
    ensures After(w, [a]) == Next(w, a)
  {
    hide Next;
    assert [a][1..] == [];
  }

  lemma AfterTwo(w: ImportRuntime.World, a: Event, b: Event)
    ensures After(w, [a, b]) == Next(Next(w, a), b)
  {
    hide Next;
    assert [a, b][1..] == [b];
    AfterOne(Next(w, a), b);
  }

  lemma AfterThree(w: ImportRuntime.World, a: Event, b: Event, c: Event)
    ensures After(w, [a, b, c]) == Next(Next(Next(w, a), b), c)
  {
    hide Next;
    assert [a, b, c][1..] == [b, c];
    AfterTwo(Next(w, a), b, c);
  }

  lemma AfterFive(w: ImportRuntime.World, a: Event, b: Event, c: Event, d: Event, e: Event)
    ensures After(w, [a, b, c, d, e]) == Next(Next(Next(Next(Next(w, a), b), c), d), e)
  {
    hide Next;
    assert [a, b, c, d, e][1..] == [b, c, d, e] && [b, c, d, e][1..] == [c, d, e];
    AfterThree(Next(Next(w, a), b), c, d, e);
  }

  /** The steps of a command are steps of the run model, so what holds of every run holds of every command. */
  lemma {:induction false} CommandsKeepConsistency(w: ImportRuntime.World, events: seq<Event>)
    requires Consistent(w)
    ensures Consistent(After(w, events))
    decreases |events|
  {
    hide Next, Consistent;
    if events != [] {
      NextKeeps(w, events[0]);
      CommandsKeepConsistency(Next(w, events[0]), events[1..]);
    }
  }

  predicate Repeats(record: Record, arguments: Arguments) {
    record.arguments == arguments.(expectedStage := None) && arguments.expectedStage == record.stage
  }

  function StageEvent(faults: PrepareFaults): Event {
    if faults.made.Some? then SavePrepared(faults.made.value.0, faults.made.value.1, faults.prepared) else Fail
  }

  function PrepareEvents(identity: Identity, sid: string, arguments: Arguments, faults: PrepareFaults): seq<Event> {
    [Acquire(identity, sid, arguments, faults.store), SaveCreating(faults.creating), StageEvent(faults)]
  }

  function InspectEvents(identity: Identity, sid: string, save: Store, first: Store, second: Store): seq<Event> {
    [Event.Inspect(identity, sid, save), Event.Complete(first, second)]
  }

  /** A record past the prepared phase is only inspected; otherwise the command takes its five steps. */
  function PublishEvents(w: ImportRuntime.World, identity: Identity, sid: string, arguments: Arguments, faults: PublishFaults): seq<Event> {
    if OwnsRecord(w, identity, sid) && Repeats(w.records[identity.attemptId], arguments)
       && !w.records[identity.attemptId].phase.StagePrepared?
    then InspectEvents(identity, sid, faults.published, faults.first, faults.second)
    else [Check(identity, sid, arguments), if faults.validated then Commit(faults.store, faults.intent) else Fail,
          NativePublish(faults.moved, faults.returned), SavePublished(faults.published), Event.Complete(faults.first, faults.second)]
  }

  /** With nothing in flight the later steps of a command do nothing. */
  lemma IdleStays(w: ImportRuntime.World, ev: Event)
    requires w.flight.Idle?
    requires Later(ev)
    ensures Next(w, ev) == w
  {
    hide LedgerCall;
  }

  class Runtime {
    const ledger: Ledger
    var records: map<string, Record>
    var native: seq<string>
    var destination: set<string>
    ghost var flight: Flight

    ghost predicate Valid()
      reads this, ledger
    {
      ledger.Valid()
    }

    ghost function Here(): ImportRuntime.World
      reads this, ledger
    {
      ImportRuntime.World.World(ledger.Here(), records, flight, native, destination)
    }

    constructor (l: Ledger)
      requires l.Valid()
      ensures Valid() && ledger == l && Here() == ImportRuntime.World.World(l.Here(), map[], Idle, [], {})
    {
      ledger, records, native, destination, flight := l, map[], [], {}, Idle;
    }

    method Save(r: Record, save: Store) returns (ok: bool)
      modifies this`records
      ensures records == AfterRecord(old(records), r, save) && ok == save.Works?
    {
      if !save.SaveFails? { records := records[r.identity.attemptId := r]; }
      return save.Works?;
    }

    predicate Owned(identity: Identity, sid: string)
      reads this
    {
      identity.attemptId in records && records[identity.attemptId].identity == identity && records[identity.attemptId].sid == sid
    }

    /** `InspectEntry` past the prepared phase: it completes what the destination already shows, and nothing more. */
    method InspectEntry(identity: Identity, sid: string, save: Store, first: Store, second: Store) returns (ok: bool)
      requires Valid() && flight.Idle?
      modifies this, ledger
      ensures Valid() && flight.Idle? && native == old(native) && destination == old(destination)
      ensures Here() == After(old(Here()), InspectEvents(identity, sid, save, first, second))
    {
      hide LedgerCall, LedgerValid, Lists;
      ghost var w := Here();
      ghost var last := Event.Complete(first, second);
      AfterTwo(w, Event.Inspect(identity, sid, save), last);
      ghost var w1 := Next(w, Event.Inspect(identity, sid, save));
      if w1.flight.Idle? { IdleStays(w1, last); }
      if !Owned(identity, sid) { return false; }
      var record := records[identity.attemptId];
      if !(record.phase.PublicationIntent? || record.phase.Published?) || identity.attemptId !in destination { return false; }
      if record.phase.PublicationIntent? {
        ok := Save(record.(phase := Published), save);
        if !ok { return; }
      }
      flight := Recorded(identity, sid);
      assert Here() == w1;
      ok := CompleteReservation(identity, sid, first, second);
    }

    method CompleteReservation(identity: Identity, sid: string, first: Store, second: Store) returns (ok: bool)
      requires Valid() && flight == Recorded(identity, sid)
      modifies this`flight, ledger
      ensures Valid() && flight.Idle?
      ensures Here() == Next(old(Here()), Event.Complete(first, second))
    {
      hide LedgerValid, Lists, CarryOut, AttemptSteps.CompleteImport, Next, Owns;
      Completing(Here(), first, second);
      var m := ledger.attempts;
      var holds := identity.attemptId in m && m[identity.attemptId].request.holdForImport;
      CompletionStores(m, identity, sid, first, second);
      var r := ledger.CompleteImport(identity, sid, first, if holds then second else first);
      flight := Idle;
      return r.Ok?;
    }

    /** `prepare_import` for an attempt with no record yet. */
    method PrepareImport(identity: Identity, sid: string, arguments: Arguments, faults: PrepareFaults) returns (ok: bool)
      requires Valid() && flight.Idle?
      modifies this, ledger
      ensures Valid() && flight.Idle? && native == old(native) && destination == old(destination)
      ensures Here() == After(old(Here()), PrepareEvents(identity, sid, arguments, faults))
    {
      hide LedgerCall, LedgerValid, Lists;
      ghost var w := Here();
      ghost var a, b, c := Acquire(identity, sid, arguments, faults.store), SaveCreating(faults.creating), StageEvent(faults);
      AfterThree(w, a, b, c);
      if Next(w, a).flight.Idle? { IdleStays(Next(w, a), b); IdleStays(Next(w, a), c); }
      if identity.attemptId in records { return false; }
      ok := AcquireHold(identity, sid, arguments, faults.store);
      if !ok { return; }
      ghost var w1 := Here();
      var creating := Record(identity, sid, arguments, CreatingStage, None, None);
      ok := Save(creating, faults.creating);
      flight := if ok then Creating(identity, sid) else Idle;
      assert Here() == Next(w1, b);
      if !ok { IdleStays(Here(), c); return; }
      flight := Idle;
      if faults.made.None? { return false; }
      ok := Save(creating.(phase := StagePrepared, parent := Some(faults.made.value.0), stage := Some(faults.made.value.1)), faults.prepared);
    }

    method AcquireHold(identity: Identity, sid: string, arguments: Arguments, store: Store) returns (ok: bool)
      requires Valid() && flight.Idle? && identity.attemptId !in records
      modifies this`flight, ledger
      ensures Valid() && Here() == Next(old(Here()), Acquire(identity, sid, arguments, store))
      ensures flight == if ok then Acquired(identity, sid, arguments) else Idle
    {
      hide LedgerValid, Lists, CarryOut, AttemptSteps.AcquireImport;
      var r := ledger.AcquireImport(identity, sid, store);
      flight := if r.Ok? then Acquired(identity, sid, arguments) else Idle;
      return r.Ok?;
    }

    /** The ledger's mark first, then the intent record, under one lock. */
    method CommitIntent(identity: Identity, sid: string, store: Store, save: Store) returns (ok: bool)
      requires Valid() && flight == Checked(identity, sid) && Owned(identity, sid)
      modifies this`flight, this`records, ledger
      ensures Valid() && Here() == Next(old(Here()), Commit(store, save))
      ensures flight == if ok then Committed(identity, sid) else Idle
      ensures ok ==> Owned(identity, sid)
    {
      hide LedgerValid, Lists, CarryOut, AttemptSteps.CommitPublication, Next;
      Committing(Here(), store, save);
      var r := ledger.CommitPublication(identity, sid, store);
      flight := Idle;
      if r.Refused? { return false; }
      ok := Save(records[identity.attemptId].(phase := PublicationIntent), save);
      if ok { flight := Committed(identity, sid); }
    }

    method CheckValidation(identity: Identity, sid: string, arguments: Arguments) returns (ok: bool)
      requires Valid() && flight.Idle? && Owned(identity, sid)
      requires Repeats(records[identity.attemptId], arguments) && records[identity.attemptId].phase.StagePrepared?
      modifies this`flight
      ensures Valid() && Here() == Next(old(Here()), Check(identity, sid, arguments))
      ensures flight == if ok then Checked(identity, sid) else Idle
    {
      hide LedgerValid, Lists, CarryOut, AttemptSteps.CheckImport;
      var r := ledger.CheckImport(identity, sid);
      if r.Ok? { flight := Checked(identity, sid); }
      return r.Ok?;
    }

    /** `publish_import`: check, commit on both files, run the native step, record it, release the hold. */
    method PublishImport(identity: Identity, sid: string, arguments: Arguments, faults: PublishFaults) returns (ok: bool)
      requires Valid() && flight.Idle?
      modifies this, ledger
      ensures Valid() && flight.Idle?
      ensures Here() == After(old(Here()), PublishEvents(old(Here()), identity, sid, arguments, faults))
    {
      hide LedgerCall, LedgerValid, Lists;
      ghost var w := Here();
      if Owned(identity, sid) && Repeats(records[identity.attemptId], arguments) && !records[identity.attemptId].phase.StagePrepared? {
        ok := InspectEntry(identity, sid, faults.published, faults.first, faults.second);
        return;
      }
      ghost var a := Check(identity, sid, arguments);
      ghost var b := if faults.validated then Commit(faults.store, faults.intent) else Fail;
      ghost var c, d, e := NativePublish(faults.moved, faults.returned), SavePublished(faults.published), Event.Complete(faults.first, faults.second);
      AfterFive(w, a, b, c, d, e);
      if !Owned(identity, sid) || !Repeats(records[identity.attemptId], arguments) {
        IdleRest(w, b, c, d, e);
        return false;
      }
      ok := CheckValidation(identity, sid, arguments);
      if !ok { IdleRest(Here(), b, c, d, e); return; }
      ok := PublishChecked(identity, sid, faults);
    }

    /** The native step: it may move the stage into place, and it may fail before or after doing so. */
    method RunNativePublish(identity: Identity, sid: string, moved: bool, returned: bool) returns (ok: bool)
      requires Valid() && flight == Committed(identity, sid)
      modifies this`native, this`destination, this`flight
      ensures Valid() && Here() == Next(old(Here()), NativePublish(moved, returned))
      ensures flight == (if ok then Placed(identity, sid) else Idle) && records == old(records)
    {
      hide LedgerCall, LedgerValid, Lists;
      native := native + [identity.attemptId];
      if moved { destination := destination + {identity.attemptId}; }
      ok := moved && returned;
      flight := if ok then Placed(identity, sid) else Idle;
    }

    method RecordPublished(identity: Identity, sid: string, save: Store) returns (ok: bool)
      requires Valid() && flight == Placed(identity, sid) && Owned(identity, sid)
      modifies this`records, this`flight
      ensures Valid() && Here() == Next(old(Here()), SavePublished(save))
      ensures flight == if ok then Recorded(identity, sid) else Idle
    {
      hide LedgerCall, LedgerValid, Lists;
      ok := Save(records[identity.attemptId].(phase := Published), save);
      flight := if ok then Recorded(identity, sid) else Idle;
    }

    method PublishChecked(identity: Identity, sid: string, faults: PublishFaults) returns (ok: bool)
      requires Valid() && flight == Checked(identity, sid) && Owned(identity, sid)
      modifies this, ledger
      ensures Valid() && flight.Idle?
      ensures var b := if faults.validated then Commit(faults.store, faults.intent) else Fail;
              Here() == Next(Next(Next(Next(old(Here()), b), NativePublish(faults.moved, faults.returned)), SavePublished(faults.published)),
                             Event.Complete(faults.first, faults.second))
    {
      ghost var c, d, e := NativePublish(faults.moved, faults.returned), SavePublished(faults.published), Event.Complete(faults.first, faults.second);
      Failing(Here());
      hide Next, LedgerValid, Lists;
      if !faults.validated {
        flight := Idle;
        IdleRest(Here(), c, d, e, e);
        return false;
      }
      ok := CommitIntent(identity, sid, faults.store, faults.intent);
      if !ok { IdleRest(Here(), c, d, e, e); return; }
      ok := RunNativePublish(identity, sid, faults.moved, faults.returned);
      if !ok { IdleRest(Here(), d, e, e, e); return; }
      ok := RecordPublished(identity, sid, faults.published);
      if !ok { IdleStays(Here(), e); return; }
      ok := CompleteReservation(identity, sid, faults.first, faults.second);
    }
  }

  lemma Failing(w: ImportRuntime.World)
    ensures Next(w, Fail) == w.(flight := Idle)
  {
    hide LedgerCall;
  }

  predicate Later(ev: Event) {
    ev.SaveCreating? || ev.SavePrepared? || ev.Fail? || ev.Commit? || ev.NativePublish? || ev.SavePublished? || ev.Complete?
  }

  lemma IdleRest(w: ImportRuntime.World, b: Event, c: Event, d: Event, e: Event)
    requires w.flight.Idle? && Later(b) && Later(c) && Later(d) && Later(e)
    ensures Next(w, b) == w && Next(w, c) == w && Next(w, d) == w && Next(w, e) == w
  {
    hide Next;
    IdleStays(w, b);
    IdleStays(w, c);
    IdleStays(w, d);
    IdleStays(w, e);
  }

  lemma Committing(w: ImportRuntime.World, store: Store, save: Store)
    requires w.flight.Checked? && OwnsRecord(w, w.flight.identity, w.flight.sid)
    ensures var f := w.flight;
            var plan := AttemptSteps.CommitPublication(w.ledger.mem, f.identity, f.sid);
            var (ledger, r) := if w.ledger.available then CarryOut(w.ledger.mem, plan, store, Works) else (w.ledger, Refused(StoreUnavailable));
            Next(w, Commit(store, save)) ==
              if r.Refused? then w.(ledger := ledger, flight := Idle)
              else w.(ledger := ledger, records := AfterRecord(w.records, w.records[f.identity.attemptId].(phase := PublicationIntent), save),
                      flight := if save.Works? then Committed(f.identity, f.sid) else Idle)
  {
    hide CarryOut, AttemptSteps.CommitPublication;
  }

  lemma Completing(w: ImportRuntime.World, first: Store, second: Store)
    requires w.flight.Recorded?
    ensures var plan := AttemptSteps.CompleteImport(w.ledger.mem, w.flight.identity, w.flight.sid);
            Next(w, Event.Complete(first, second))
            == w.(ledger := if w.ledger.available then CarryOut(w.ledger.mem, plan, first, second).0 else w.ledger, flight := Idle)
  {
    hide CarryOut, AttemptSteps.CompleteImport;
  }

  /** Without a hold to clear, completing an import saves at most once, so only one store outcome matters. */
  lemma CompletionStores(m: Attempts, identity: Identity, sid: string, first: Store, second: Store)
    ensures var plan := AttemptSteps.CompleteImport(m, identity, sid);
            var hold := identity.attemptId in m && m[identity.attemptId].request.holdForImport;
            var last := if hold then second else first;
            CarryOut(m, plan, if Owns(m, identity, sid) && hold then first else last, last) == CarryOut(m, plan, first, second)
  {
  }
}
