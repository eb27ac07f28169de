/** Whole runs of the ledger service: calls in any order, saves failing anywhere, restarts at any time. */
module AttemptRuns {
  import opened Common
  import opened AttemptState
  import opened AttemptSteps
  import opened AttemptLedger

  datatype Event = Op(call: Call, first: Store, second: Store) | Restart(store: Store)

  predicate AnyLaunched(m: Attempts) { exists id :: id in m && Launched(m[id].phase) }

  /** The next world, and what the caller of an operation is told. */
  function Next(w: World, ev: Event): (World, Result<Answer, Refusal>) {
    match ev
    case Op(call, first, second) =>
      if w.available then CarryOut(w.mem, PlanOf(w.mem, call), first, second) else (w, Refused(StoreUnavailable))
    case Restart(store) =>
      if AnyLaunched(w.durable) then (AfterSave(w.durable, Restarted(w.durable), store), Refused(StoreUnavailable))
      else (World(w.durable, w.durable, true), Refused(StoreUnavailable))
  }

  ghost predicate WorldValid(w: World) { LedgerValid(w.durable) && (w.available ==> w.mem == w.durable) }

  // ---- one event ----

  /** What lasts from any moment to any later one. */
  predicate Later(a: Entry, b: Entry) {
    && b.request.identity == a.request.identity && b.request.callerSid == a.request.callerSid
    && (b.phase == a.phase || Rank(a.phase) < Rank(b.phase))
    && (b.held ==> a.held)
    && (a.held && !b.held ==> Ended(b.phase))
    && (a.request.cancellationRequested ==> b.request.cancellationRequested)
    && (a.request.publicationCommitted ==> b.request.publicationCommitted)
  }

  ghost predicate LaterTable(a: Attempts, b: Attempts) {
    forall id :: id in a ==> id in b && Later(a[id], b[id])
  }

  lemma LaterTransitive(a: Attempts, b: Attempts, c: Attempts)
    requires LaterTable(a, b) && LaterTable(b, c)
    ensures LaterTable(a, c)
  {
  }

  lemma ClimbsIsLater(a: Attempts, b: Attempts)
    requires Climbs(a, b)
    ensures LaterTable(a, b)
  {
  }

  lemma RestartIsLater(m: Attempts)
    ensures LaterTable(m, Restarted(m))
  {
  }

  lemma NothingToDemote(m: Attempts)
    requires !AnyLaunched(m)
    ensures Restarted(m) == m
  {
    assert Restarted(m).Keys == m.Keys;
  }

  /** Carrying out a plan with good steps, wherever the saves fail. */
  lemma CarriedOutKeeps(m: Attempts, plan: Plan, first: Store, second: Store)
    requires LedgerValid(m) && (plan.Steps? ==> GoodSteps(m, plan.writes))
    ensures var w := CarryOut(m, plan, first, second).0; WorldValid(w) && LaterTable(m, w.durable)
  {
    hide LedgerValid, Climbs, LaterTable;
    SameIsLater(m);
    if plan.Steps? && plan.writes != [] {
      var w0 := plan.writes[0];
      ClimbsIsLater(m, w0);
      if |plan.writes| == 2 {
        ClimbsIsLater(w0, plan.writes[1]);
        LaterTransitive(m, w0, plan.writes[1]);
      }
    }
  }

  lemma SameIsLater(m: Attempts)
    ensures LaterTable(m, m)
  {
  }

  lemma NextKeeps(w: World, ev: Event)
    requires WorldValid(w)
    ensures WorldValid(Next(w, ev).0) && LaterTable(w.durable, Next(w, ev).0.durable)
  {
    hide LedgerValid, LaterTable, CarryOut, PlanOf;
    SameIsLater(w.durable);
    match ev
    case Op(call, first, second) =>
      if w.available {
        if PlanOf(w.mem, call).Steps? {
          EveryPlanIsGood(w.mem, call);
        }
        CarriedOutKeeps(w.mem, PlanOf(w.mem, call), first, second);
      }
    case Restart(store) =>
      RestartIsLater(w.durable);
      RestartKeepsLedger(w.durable);
  }

  // ---- runs ----

  datatype Run = Run(worlds: seq<World>, events: seq<Event>)

  ghost predicate Legal(r: Run) {
    && |r.worlds| == |r.events| + 1
    && r.worlds[0] == World(map[], map[], true)
    && forall i :: 0 <= i < |r.events| ==> r.worlds[i + 1] == Next(r.worlds[i], r.events[i]).0
  }

  lemma {:induction false} ReachableIsValid(r: Run, j: nat)
    requires Legal(r) && j < |r.worlds|
    ensures WorldValid(r.worlds[j])
  {
    if j > 0 {
      ReachableIsValid(r, j - 1);
      NextKeeps(r.worlds[j - 1], r.events[j - 1]);
    }
  }

  /** No two held reservations ever conflict, on file or in a ledger that answers. */
  lemma HeldReservationsNeverConflict(r: Run, j: nat, a: string, b: string)
    requires Legal(r) && j < |r.worlds| && a != b
    ensures var m := r.worlds[j].durable;
            a in m && b in m && m[a].held && m[b].held ==> !Conflict(m[a].request, m[b].request)
    ensures var m := r.worlds[j].mem;
            r.worlds[j].available && a in m && b in m && m[a].held && m[b].held ==> !Conflict(m[a].request, m[b].request)
  {
    ReachableIsValid(r, j);
    hide EntriesValid, Conflict;
  }

  /** Attempts are never lost, their stored phase only climbs, and a reservation goes only after the attempt ended. */
  lemma {:induction false} StoredAttemptsClimb(r: Run, i: nat, j: nat)
    requires Legal(r) && i <= j < |r.worlds|
    ensures LaterTable(r.worlds[i].durable, r.worlds[j].durable)
    decreases j
  {
    hide LaterTable, Next;
    if i == j {
      SameIsLater(r.worlds[i].durable);
    } else {
      StoredAttemptsClimb(r, i, j - 1);
      ReachableIsValid(r, j - 1);
      NextKeeps(r.worlds[j - 1], r.events[j - 1]);
      LaterTransitive(r.worlds[i].durable, r.worlds[j - 1].durable, r.worlds[j].durable);
    }
  }

  /** Event `i` told its caller that it is the one to dispatch attempt `id`. */
  predicate DispatchGranted(r: Run, i: nat, id: string)
    requires i < |r.events| < |r.worlds|
  {
    && r.events[i].Op? && r.events[i].call.CallTryCommitDispatch?
    && r.events[i].call.identity.attemptId == id
    && Next(r.worlds[i], r.events[i]).1 == Ok(Dispatched(true))
  }

  lemma GrantMeansCommitted(r: Run, i: nat, id: string)
    requires Legal(r) && i < |r.events| && DispatchGranted(r, i, id)
    ensures id in r.worlds[i].mem && r.worlds[i].available && r.worlds[i].mem[id].phase == Prepared
    ensures id in r.worlds[i + 1].durable && r.worlds[i + 1].durable[id].phase == DispatchCommitted
  {
    var w, c := r.worlds[i], r.events[i].call;
    DispatchedLeavesPrepared(w.mem, c);
  }

  /** Through any calls, failures and restarts an attempt is given out for dispatch at most once. */
  lemma DispatchedAtMostOnce(r: Run, i: nat, j: nat, id: string)
    requires Legal(r) && i < j < |r.events| && DispatchGranted(r, i, id)
    ensures !DispatchGranted(r, j, id)
  {
    hide Next;
    if DispatchGranted(r, j, id) {
      GrantMeansCommitted(r, i, id);
      GrantMeansCommitted(r, j, id);
      StoredAttemptsClimb(r, i + 1, j);
      ReachableIsValid(r, j);
    }
  }

  /** While an attempt holds the global key on file, no other attempt is given out for dispatch. */
  lemma NoDispatchUnderGlobalKey(r: Run, i: nat, holder: string, id: string)
    requires Legal(r) && i < |r.events| && id != holder
    requires holder in r.worlds[i].durable && HoldsGlobal(r.worlds[i].durable[holder])
    ensures !DispatchGranted(r, i, id)
  {
    ReachableIsValid(r, i);
    var w := r.worlds[i];
    if DispatchGranted(r, i, id) {
      DispatchedLeavesPreparedWhenGranted(w, r.events[i]);
      GlobalBlocksOthers(w.mem, holder, r.events[i].call);
    }
  }

  lemma DispatchedLeavesPreparedWhenGranted(w: World, ev: Event)
    requires ev.Op? && ev.call.CallTryCommitDispatch? && Next(w, ev).1 == Ok(Dispatched(true))
    ensures w.available && FirstDispatch(PlanOf(w.mem, ev.call))
  {
  }

  /**
   * Restart closure over runs: whatever array the ledger's file holds loads, and to exactly the table the
   * run goes on with; that is the stored one, launched attempts unknown, every reservation kept.
   */
  lemma RestartGoesThroughTheFile(r: Run, j: nat, disk: seq<Entry>, loaded: Attempts)
    requires Legal(r) && j < |r.worlds| && Lists(disk, r.worlds[j].durable)
    ensures Loadable(disk)
    ensures LoadsTo(disk, loaded) ==> Next(r.worlds[j], Restart(Works)).0 == World(loaded, loaded, true)
    ensures LoadsTo(disk, loaded) ==> loaded.Keys == r.worlds[j].durable.Keys
    ensures LoadsTo(disk, loaded) ==> forall id :: id in loaded ==>
              var was := r.worlds[j].durable[id];
              loaded[id].held == was.held && loaded[id].request == was.request
              && loaded[id].phase == if Launched(was.phase) then TerminationUnknown else was.phase
  {
    hide LedgerValid, Lists, Loadable, LoadsTo;
    ReachableIsValid(r, j);
    SnapshotsReload(disk, r.worlds[j].durable, loaded);
    if !AnyLaunched(r.worlds[j].durable) {
      NothingToDemote(r.worlds[j].durable);
    }
  }

  lemma LaunchedOnDisk(disk: seq<Entry>, m: Attempts)
    requires Lists(disk, m)
    ensures (exists k :: 0 <= k < |disk| && Launched(disk[k].phase)) <==> AnyLaunched(m)
  {
    if AnyLaunched(m) {
      var id :| id in m && Launched(m[id].phase);
      assert Listed(disk, id);
      var k :| 0 <= k < |disk| && IdOf(disk[k]) == id;
      assert Launched(disk[k].phase);
    }
    if k :| 0 <= k < |disk| && Launched(disk[k].phase) {
      assert Launched(m[IdOf(disk[k])].phase);
    }
  }

  /** Starting the service over its file is the restart of the run model, for every outcome of its save. */
  method Reopen(ghost w: World, disk: seq<Entry>, store: Store) returns (ledger: Option<Ledger>, file: seq<Entry>)
    requires WorldValid(w) && Lists(disk, w.durable)
    ensures var w' := Next(w, Restart(store)).0;
            && (ledger.Some? <==> w'.available) && Lists(file, w'.durable)
            && (ledger.Some? ==> fresh(ledger.value) && ledger.value.Valid() && ledger.value.Here() == w')
  {
    hide LedgerValid, Loadable, LoadsTo;
    LaunchedOnDisk(disk, w.durable);
    SnapshotsReload(disk, w.durable, Restarted(w.durable));
    ghost var was := w.durable;
    LoadsToRestarted(disk, was);
    if !AnyLaunched(was) { NothingToDemote(was); }
    hide Lists;
    ledger, file := Ledger.Open(disk, store);
    if ledger.Some? { SnapshotsReload(disk, was, ledger.value.attempts); }
  }

  lemma LoadsToRestarted(disk: seq<Entry>, m: Attempts)
    requires Lists(disk, m)
    ensures LoadsTo(disk, Restarted(m))
  {
    hide StoredValid;
  }
}
