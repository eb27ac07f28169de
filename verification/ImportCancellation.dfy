/** A cancellation against a publication already committed: it comes too late exactly then. */
module ImportCancellation {
  import opened Common
  import opened AttemptState
  import opened AttemptSteps
  import opened AttemptLedger
  import A = AttemptRuns
  import opened ImportRuntime

  predicate InCommittedFlight(w: ImportRuntime.World, id: string) { w.flight.Committed? && FlightId(w.flight) == id }

  /** From the commit on, the flight that publishes is the one that committed, with nothing in between. */
  lemma {:induction false} CommittedSince(r: Run, j: nat) returns (i: nat)
    requires Legal(r) && j <= |r.events| && r.worlds[j].flight.Committed?
    ensures CommittedBefore(r, j, FlightId(r.worlds[j].flight), i)
    ensures forall k :: i < k <= j ==> r.worlds[k].flight == r.worlds[j].flight
    decreases j
  {
    hide Next;
    CommittedComesFromCommit(r.worlds[j - 1], r.events[j - 1]);
    if r.worlds[j].flight == r.worlds[j - 1].flight {
      i := CommittedSince(r, j - 1);
    } else {
      i := j - 1;
    }
  }

  /** An attempt that publishes although its cancellation is on file was past its commit when the cancellation was. */
  lemma CancelledPublishWasCommitted(r: Run, k: nat, j: nat, id: string)
    requires Legal(r) && k <= j < |r.events| && PublishesAt(r, j, id) && CancelledOnFile(r.worlds[k].ledger, id)
    ensures InCommittedFlight(r.worlds[k], id)
  {
    hide Next, Consistent;
    var i := CommittedSince(r, j);
    if k <= i {
      ReachableIsConsistent(r, i);
      CommitNotCancelled(r.worlds[i], r.events[i]);
      CancellationStays(r, k, i, id);
    }
  }

  lemma ElsewhereLeavesTheFlight(w: ImportRuntime.World, ev: Event)
    requires ev.Elsewhere?
    ensures Next(w, ev).flight == w.flight && Next(w, ev).native == w.native
  {
    hide LedgerCall;
  }

  lemma {:induction false} FlightUntouched(r: Run, k: nat, j: nat)
    requires Legal(r) && k <= j <= |r.events| && forall x :: k <= x < j ==> r.events[x].Elsewhere?
    ensures r.worlds[j].flight == r.worlds[k].flight && r.worlds[j].native == r.worlds[k].native
    decreases j
  {
    hide Next;
    if k < j {
      FlightUntouched(r, k, j - 1);
      ElsewhereLeavesTheFlight(r.worlds[j - 1], r.events[j - 1]);
    }
  }

  /**
   * With only other ledger calls in between, a cancellation among them, the publish step after them runs
   * exactly when the commit had been made before them.
   */
  lemma PublishesExactlyWhenCommitted(r: Run, k: nat, j: nat, id: string)
    requires Legal(r) && k <= j < |r.events| && r.events[j].NativePublish?
    requires forall x :: k <= x < j ==> r.events[x].Elsewhere?
    ensures PublishesAt(r, j, id) <==> InCommittedFlight(r.worlds[k], id)
    ensures InCommittedFlight(r.worlds[k], id) ==> r.worlds[j + 1].native == r.worlds[k].native + [id]
  {
    FlightUntouched(r, k, j);
    if PublishesAt(r, j, id) { PublishesOnlyPastBothMarks(r, j, id); }
  }

  // ---- a run in which it happens ----

  const DIGEST := Repeat('a', 64)
  const WHO := Identity("t", "r", "a", 1, DIGEST, "c", "s", "w")
  const SID := "S-1-5-18"
  const REQUEST := Request(WHO, SID, "C:\\w", DIGEST, false, false, false, false)
  const ARGUMENTS := Arguments("C:\\w", "C:\\d", None, "c", None, None)

  lemma SidIsValid()
    ensures Sid(SID)
  {
    assert SID[5] == '-';
    assert forall i :: 4 <= i < |SID| ==> IsDigit(SID[i]) || (SID[i] == '-' && i == 5);
  }

  lemma DigestIsValid()
    ensures DigestText(DIGEST)
  {
    hide Repeat;
  }

  lemma LetterIsName(c: char)
    requires 'a' <= c <= 'z'
    ensures Name([c])
  {
    assert !IsWhiteSpace([c][0]);
  }

  lemma RequestIsValid()
    ensures RequestValid(REQUEST)
  {
    hide Repeat;
    SidIsValid();
    DigestIsValid();
    LetterIsName('t');
    LetterIsName('r');
    LetterIsName('a');
    LetterIsName('c');
    LetterIsName('s');
    LetterIsName('w');
    hide Name, Sid, DigestText;
  }

  /** A ledger with the one attempt, in memory and on file. */
  function Alone(e: Entry): AttemptLedger.World { AttemptLedger.World(map["a" := e], map["a" := e], true) }

  const PREPARED := NewEntry(REQUEST, Phase.Prepared)
  const LAUNCHED := PREPARED.(phase := DispatchCommitted)
  const HELD := LAUNCHED.(request := REQUEST.(key := GLOBAL_KEY, shared := false, holdForImport := true))
  const MARKED := HELD.(request := HELD.request.(publicationCommitted := true))
  const CANCELLED := MARKED.(request := MARKED.request.(cancellationRequested := true))

  function Filed(phase: ImportPhase): Record {
    if phase.CreatingStage? then Record(WHO, SID, ARGUMENTS, phase, None, None)
    else Record(WHO, SID, ARGUMENTS, phase, Some("p"), Some("s"))
  }

  function At(e: Entry, phase: ImportPhase, flight: Flight): ImportRuntime.World {
    ImportRuntime.World.World(Alone(e), map["a" := Filed(phase)], flight, [], {})
  }

  const EVENTS := [
    Elsewhere(CallPrepare(REQUEST), Works, Works),
    Elsewhere(CallTryCommitDispatch(WHO, SID, DIGEST), Works, Works),
    Acquire(WHO, SID, ARGUMENTS, Works),
    SaveCreating(Works),
    SavePrepared("p", "s", Works),
    Check(WHO, SID, ARGUMENTS.(expectedStage := Some("s"))),
    Commit(Works, Works),
    Elsewhere(CallRequestCancellation(WHO, SID), Works, Works),
    NativePublish(true, true)]

  const WORLDS := [
    ImportRuntime.World.World(AttemptLedger.World(map[], map[], true), map[], Idle, [], {}),
    ImportRuntime.World.World(Alone(PREPARED), map[], Idle, [], {}),
    ImportRuntime.World.World(Alone(LAUNCHED), map[], Idle, [], {}),
    ImportRuntime.World.World(Alone(HELD), map[], Acquired(WHO, SID, ARGUMENTS), [], {}),
    At(HELD, CreatingStage, Creating(WHO, SID)),
    At(HELD, StagePrepared, Idle),
    At(HELD, StagePrepared, Checked(WHO, SID)),
    At(MARKED, PublicationIntent, Committed(WHO, SID)),
    At(CANCELLED, PublicationIntent, Committed(WHO, SID)),
    At(CANCELLED, PublicationIntent, Placed(WHO, SID)).(native := ["a"], destination := {"a"})]

  /** A map with one key, written twice. */
  lemma Replaced(e: Entry, f: Entry)
    ensures map["a" := e]["a" := f] == map["a" := f]
  {
  }

  lemma FirstSteps()
    ensures Next(WORLDS[0], EVENTS[0]) == WORLDS[1] && Next(WORLDS[1], EVENTS[1]) == WORLDS[2]
  {
    hide Repeat;
    RequestIsValid();
    hide RequestValid;
    Replaced(PREPARED, LAUNCHED);
    assert map[]["a" := PREPARED] == map["a" := PREPARED];
  }

  lemma AcquireStep()
    ensures Next(WORLDS[2], EVENTS[2]) == WORLDS[3]
  {
    hide Repeat;
    hide RequestValid, Conflict;
    Replaced(LAUNCHED, HELD);
  }

  lemma StageSteps()
    ensures Next(WORLDS[3], EVENTS[3]) == WORLDS[4] && Next(WORLDS[4], EVENTS[4]) == WORLDS[5]
  {
    hide Repeat;
    hide LedgerCall;
  }

  lemma CheckStep()
    ensures Next(WORLDS[5], EVENTS[5]) == WORLDS[6]
  {
    hide Repeat;
  }

  lemma CommitStep()
    ensures Next(WORLDS[6], EVENTS[6]) == WORLDS[7]
  {
    hide Repeat;
    Replaced(HELD, MARKED);
  }

  lemma CancelStep()
    ensures Next(WORLDS[7], EVENTS[7]) == WORLDS[8]
  {
    hide Repeat;
    Replaced(MARKED, CANCELLED);
  }

  lemma PublishStep()
    ensures Next(WORLDS[8], EVENTS[8]) == WORLDS[9]
  {
    hide Repeat;
    hide LedgerCall;
  }

  /** The order does occur: committed, then cancelled on file, then published all the same. */
  lemma CancelledAfterCommitStillPublishes() returns (r: Run)
    ensures Legal(r) && |r.events| == 9 && CommitsAt(r, 6, "a")
    ensures r.events[7] == Elsewhere(CallRequestCancellation(WHO, SID), Works, Works)
    ensures !CancelledOnFile(r.worlds[7].ledger, "a") && CancelledOnFile(r.worlds[8].ledger, "a") && PublishesAt(r, 8, "a")
  {
    hide Repeat;
    r := Run(WORLDS, EVENTS);
    FirstSteps();
    AcquireStep();
    StageSteps();
    CheckStep();
    CommitStep();
    CancelStep();
    PublishStep();
    hide Next;
    forall i | 0 <= i < |r.events|
      ensures r.worlds[i + 1] == Next(r.worlds[i], r.events[i])
    {
      if i == 0 {} else if i == 1 {} else if i == 2 {} else if i == 3 {} else if i == 4 {}
      else if i == 5 {} else if i == 6 {} else if i == 7 {} else { assert i == 8; }
    }
  }
}
