/** What each ledger operation answers, and when: stated by what is on record, not by how it is decided. */
module AttemptAnswers {
  import opened Common
  import opened AttemptState
  import opened AttemptSteps
  import opened AttemptLedger
  import opened AttemptRuns

  // ---- which reservations exclude each other ----

  /** One is the other's letter in the other case. */
  predicate CasePair(a: char, b: char) {
    || ('a' <= a <= 'z' && a as int == b as int + 32)
    || ('a' <= b <= 'z' && b as int == a as int + 32)
  }

  /** Keys are the same exactly when they differ at most in the case of letters. */
  lemma SameKeyExactly(a: string, b: string)
    ensures Fold(a) == Fold(b) <==> |a| == |b| && forall i :: 0 <= i < |a| ==> a[i] == b[i] || CasePair(a[i], b[i])
  {
    if |a| == |b| && (forall i :: 0 <= i < |a| ==> a[i] == b[i] || CasePair(a[i], b[i])) {
      forall i | 0 <= i < |a|
        ensures Fold(a)[i] == Fold(b)[i]
      {
        assert a[i] == b[i] || CasePair(a[i], b[i]);
      }
    }
    if Fold(a) == Fold(b) {
      assert |Fold(a)| == |a| && |Fold(b)| == |b|;
      forall i | 0 <= i < |a|
        ensures a[i] == b[i] || CasePair(a[i], b[i])
      {
        assert Upper(a[i]) == Fold(a)[i] == Fold(b)[i] == Upper(b[i]);
      }
    }
  }

  /** Two keys meet: the same, or one of them the machine-wide key. */
  predicate Meet(a: string, b: string) {
    Fold(a) == Fold(b) || Fold(a) == Fold(GLOBAL_KEY) || Fold(b) == Fold(GLOBAL_KEY)
  }

  /** The law of reservations in every table of every run: where two held keys meet, both attempts share. */
  lemma MeetingReservationsAreShared(r: Run, j: nat, a: string, b: string)
    requires Legal(r) && j < |r.worlds| && a != b
    ensures var m := r.worlds[j].durable;
            a in m && b in m && m[a].held && m[b].held && Meet(m[a].request.key, m[b].request.key) ==>
              m[a].request.shared && m[b].request.shared
    ensures var m := r.worlds[j].mem;
            r.worlds[j].available && a in m && b in m && m[a].held && m[b].held && Meet(m[a].request.key, m[b].request.key) ==>
              m[a].request.shared && m[b].request.shared
  {
    hide Fold;
    HeldReservationsNeverConflict(r, j, a, b);
  }

  /** A held attempt that keeps a reservation of this key and sharing out. */
  predicate KeepsOut(e: Entry, key: string, shared: bool) {
    e.held && Meet(e.request.key, key) && !(e.request.shared && shared)
  }

  ghost predicate SomeoneKeepsOut(m: Attempts, key: string, shared: bool) {
    exists id :: id in m && KeepsOut(m[id], key, shared)
  }

  // ---- the answer with a working store ----

  /** The table on file after a call, and what the caller is told. */
  function Told(m: Attempts, c: Call): (Attempts, Result<Answer, Refusal>) {
    var (w, r) := Next(World(m, m, true), Op(c, Works, Works));
    (w.durable, r)
  }

  /** The attempt is on record for this caller. */
  predicate Mine(m: Attempts, identity: Identity, sid: string) {
    && identity.attemptId in m
    && m[identity.attemptId].request.identity == identity && m[identity.attemptId].request.callerSid == sid
  }

  /** A valid new request is refused as busy exactly when someone keeps it out, and is otherwise held as prepared. */
  lemma PrepareAnswer(m: Attempts, q: Request)
    requires RequestValid(q) && q.identity.attemptId !in m
    ensures Told(m, CallPrepare(q)).1 == Refused(WriterReservationBusy) <==> SomeoneKeepsOut(m, q.key, q.shared)
    ensures var e := Entry(q, Prepared, None, None, None, None, None, true);
            !SomeoneKeepsOut(m, q.key, q.shared) ==> Told(m, CallPrepare(q)) == (m[q.identity.attemptId := e], Ok(Observed(e)))
    ensures SomeoneKeepsOut(m, q.key, q.shared) ==> Told(m, CallPrepare(q)).0 == m
  {
    hide RequestValid, Fold;
    ConflictIsKeepingOut(m, q, None);
  }

  lemma ConflictIsKeepingOut(m: Attempts, q: Request, except: Option<string>)
    ensures HasConflict(m, q, except) <==> exists id :: id in m && Some(id) != except && KeepsOut(m[id], q.key, q.shared)
  {
    hide Fold;
    if HasConflict(m, q, except) {
      var id :| id in m && Some(id) != except && m[id].held && Conflict(m[id].request, q);
      assert KeepsOut(m[id], q.key, q.shared);
    }
    if exists id :: id in m && Some(id) != except && KeepsOut(m[id], q.key, q.shared) {
      var id :| id in m && Some(id) != except && KeepsOut(m[id], q.key, q.shared);
      assert Conflict(m[id].request, q);
    }
  }

  /** The same request again is answered with its record; any other request of that id is refused. */
  lemma PrepareAgain(m: Attempts, q: Request)
    requires RequestValid(q) && q.identity.attemptId in m
    ensures var e := m[q.identity.attemptId];
            var same := Mine(m, q.identity, q.callerSid) && Fold(e.request.key) == Fold(q.key) && e.request.operationDigest == q.operationDigest;
            Told(m, CallPrepare(q)) == (m, if same then Ok(Observed(e)) else Refused(AttemptIdConflict))
  {
    hide RequestValid, Fold;
  }

  /** An abort of an attempt never prepared leaves a record that can never launch, unless someone keeps it out. */
  lemma AbortAnswer(m: Attempts, q: Request)
    requires RequestValid(q) && q.identity.attemptId !in m
    ensures var e := Entry(q, LaunchNotStarted, None, None, None, None, None, true);
            Told(m, CallAbortBeforeLaunch(q)) ==
              if SomeoneKeepsOut(m, q.key, q.shared) then (m, Refused(WriterReservationBusy)) else (m[q.identity.attemptId := e], Ok(Observed(e)))
  {
    hide RequestValid, Fold;
    ConflictIsKeepingOut(m, q, None);
  }

  /** An abort of a known attempt takes effect exactly in the prepared phase, for its own caller, key and digest. */
  lemma AbortOfKnown(m: Attempts, q: Request)
    requires RequestValid(q) && q.identity.attemptId in m
    ensures var id, e := q.identity.attemptId, m[q.identity.attemptId];
            var known := Mine(m, q.identity, q.callerSid) && Fold(e.request.key) == Fold(q.key);
            var digests := e.request.operationDigest == q.operationDigest || q.identity.requestDigest == q.operationDigest;
            && (Told(m, CallAbortBeforeLaunch(q)).1.Ok? <==> known && digests)
            && Told(m, CallAbortBeforeLaunch(q)).0 ==
                 if known && digests && e.phase == Prepared then m[id := e.(phase := LaunchNotStarted)] else m
  {
    hide RequestValid, Fold;
  }

  /** A dispatch is the caller's to make exactly once: from the prepared phase, under the prepared digest. */
  lemma DispatchAnswer(m: Attempts, identity: Identity, sid: string, digest: string)
    ensures var id, told := identity.attemptId, Told(m, CallTryCommitDispatch(identity, sid, digest));
            var known := Mine(m, identity, sid) && m[id].request.operationDigest == digest;
            && (told.1 == Ok(Dispatched(true)) <==> known && m[id].phase == Prepared)
            && (told.1 == Ok(Dispatched(false)) <==> known && m[id].phase != Prepared && m[id].phase != LaunchNotStarted)
            && told.0 == if known && m[id].phase == Prepared then m[id := m[id].(phase := DispatchCommitted)] else m
  {
  }

  /** A dispatched attempt starts running with a positive process id, and that may be repeated. */
  lemma RunningAnswer(m: Attempts, identity: Identity, sid: string, pid: int)
    ensures var id, told := identity.attemptId, Told(m, CallMarkRunning(identity, sid, pid));
            var starts := pid > 0 && Mine(m, identity, sid) && m[id].phase == DispatchCommitted;
            var again := pid > 0 && Mine(m, identity, sid) && m[id].phase == Running && m[id].targetPid == Some(pid);
            && (told.1.Ok? <==> starts || again)
            && told.0 == if starts then m[id := m[id].(phase := Running, targetPid := Some(pid))] else m
  {
  }

  /** Only a launched attempt becomes unknown, with the reason given; its reservation stays as it is. */
  lemma UnknownAnswer(m: Attempts, identity: Identity, sid: string, reason: string)
    ensures var id, told := identity.attemptId, Told(m, CallMarkUnknown(identity, sid, reason));
            var fits := !Blank(reason) && |reason| <= 128 && Mine(m, identity, sid);
            && (told.1.Ok? <==> fits)
            && told.0 == if fits && (m[id].phase == DispatchCommitted || m[id].phase == Running)
                         then m[id := m[id].(phase := TerminationUnknown, reason := Some(reason))] else m
  {
    hide Blank;
  }

  /** A collision ends an attempt unlaunched exactly while it is dispatched or unknown, has no process, and is held. */
  lemma CollisionAnswer(m: Attempts, identity: Identity, sid: string, consumed: bool)
    ensures var id, told := identity.attemptId, Told(m, CallMarkJobCollision(identity, sid, consumed));
            var ends := consumed && Mine(m, identity, sid) && m[id].held && m[id].targetPid == None
                        && (m[id].phase == DispatchCommitted || m[id].phase == TerminationUnknown);
            && (told.1.Ok? <==> ends)
            && (!ends ==> told.0 == m)
            && (ends ==> told.0.Keys == m.Keys && (forall other :: other in m && other != id ==> told.0[other] == m[other])
                         && told.0[id].phase == LaunchNotStarted && told.0[id].request == m[id].request
                         && (told.0[id].held <==> m[id].request.holdForImport))
  {
  }

  /** An end is recorded once, with no process left, from a launched or unknown attempt; a repeat must agree. */
  lemma TerminalAnswer(m: Attempts, identity: Identity, sid: string, outcome: ProcessOutcome, exitCode: int, active: int)
    ensures var id, told := identity.attemptId, Told(m, CallRecordTerminal(identity, sid, outcome, exitCode, active));
            var ends := active == 0 && Mine(m, identity, sid)
                        && m[id].phase != Prepared && m[id].phase != LaunchNotStarted && m[id].phase != TerminalVerified;
            var again := active == 0 && Mine(m, identity, sid) && m[id].phase == TerminalVerified
                         && m[id].outcome == Some(outcome) && m[id].exitCode == Some(exitCode);
            && (told.1.Ok? <==> ends || again)
            && (!ends ==> told.0 == m)
            && (ends ==> told.0.Keys == m.Keys && (forall other :: other in m && other != id ==> told.0[other] == m[other])
                         && told.0[id].phase == TerminalVerified && told.0[id].outcome == Some(outcome) && told.0[id].exitCode == Some(exitCode)
                         && told.0[id].activeProcesses == Some(0) && told.0[id].reason == None && told.0[id].held == m[id].held
                         && (told.0[id].request.cancellationRequested <==>
                               m[id].request.cancellationRequested || outcome == Cancelled || outcome == TimedOut))
  {
  }

  /** A reservation is given back exactly by its owner, after the end, with no import holding it. */
  lemma ReleaseAnswer(m: Attempts, identity: Identity, sid: string)
    ensures var id, told := identity.attemptId, Told(m, CallRelease(identity, sid));
            var ended := Mine(m, identity, sid) && (m[id].phase == LaunchNotStarted || m[id].phase == TerminalVerified);
            && (told.1 == Ok(Reservation(Released)) <==> ended && m[id].held && !m[id].request.holdForImport)
            && (told.1 == Ok(Reservation(AlreadyReleased)) <==> Mine(m, identity, sid) && !m[id].held)
            && (told.1.Ok? <==> Mine(m, identity, sid))
            && told.0 == if ended && m[id].held && !m[id].request.holdForImport then m[id := m[id].(held := false)] else m
  {
  }

  /** Nobody but this attempt holds any reservation. */
  ghost predicate AloneHolding(m: Attempts, id: string) { forall other :: other in m && m[other].held ==> other == id }

  /** An import gets the machine exactly for a launched, held, uncancelled attempt when no other attempt holds anything. */
  lemma AcquireAnswer(m: Attempts, identity: Identity, sid: string)
    ensures var id, told := identity.attemptId, Told(m, CallAcquireImport(identity, sid));
            var open := Mine(m, identity, sid) && !m[id].request.cancellationRequested;
            var takes := open && !m[id].request.holdForImport && m[id].held
                         && (m[id].phase == DispatchCommitted || m[id].phase == Running) && AloneHolding(m, id);
            && (told.1.Ok? <==> takes || (open && m[id].request.holdForImport))
            && told.0 == if takes then m[id := m[id].(request := m[id].request.(key := GLOBAL_KEY, shared := false, holdForImport := true))] else m
  {
    hide Fold;
    var id := identity.attemptId;
    if Mine(m, identity, sid) {
      var exclusive := m[id].request.(key := GLOBAL_KEY, shared := false, holdForImport := true);
      ConflictIsKeepingOut(m, exclusive, Some(id));
      forall other | other in m && m[other].held
        ensures KeepsOut(m[other], exclusive.key, exclusive.shared)
      {
      }
    }
  }

  /** A cancellation marks a held attempt; one that was never dispatched is ended and released by it. */
  lemma CancellationAnswer(m: Attempts, identity: Identity, sid: string)
    ensures var id, told := identity.attemptId, Told(m, CallRequestCancellation(identity, sid));
            && (told.1.Ok? <==> Mine(m, identity, sid))
            && (Mine(m, identity, sid) && m[id].held ==>
                  && told.0.Keys == m.Keys && (forall other :: other in m && other != id ==> told.0[other] == m[other])
                  && told.0[id].request == m[id].request.(cancellationRequested := true)
                  && told.0[id].phase == (if m[id].phase == Prepared && !m[id].request.cancellationRequested then LaunchNotStarted else m[id].phase)
                  && (told.0[id].held <==> told.0[id].phase != LaunchNotStarted || m[id].request.holdForImport))
            && (!(Mine(m, identity, sid) && m[id].held) ==> told.0 == m)
  {
  }

  /** A publication may be checked or committed exactly once: launched, held for the import, not cancelled. */
  lemma PublicationAnswer(m: Attempts, identity: Identity, sid: string)
    ensures var id := identity.attemptId;
            var may := Mine(m, identity, sid) && m[id].held && m[id].request.holdForImport
                       && (m[id].phase == DispatchCommitted || m[id].phase == Running)
                       && !m[id].request.cancellationRequested && !m[id].request.publicationCommitted;
            && (Told(m, CallCheckImport(identity, sid)).1.Ok? <==> may) && Told(m, CallCheckImport(identity, sid)).0 == m
            && (Told(m, CallCommitPublication(identity, sid)).1.Ok? <==> may)
            && Told(m, CallCommitPublication(identity, sid)).0 ==
                 if may then m[id := m[id].(request := m[id].request.(publicationCommitted := true))] else m
  {
  }

  /** Completing an import clears its hold, and gives the reservation back when the attempt has ended. */
  lemma CompletionAnswer(m: Attempts, identity: Identity, sid: string)
    ensures var id, told := identity.attemptId, Told(m, CallCompleteImport(identity, sid));
            && (told.1.Ok? <==> Mine(m, identity, sid))
            && (Mine(m, identity, sid) ==>
                  && told.0.Keys == m.Keys && (forall other :: other in m && other != id ==> told.0[other] == m[other])
                  && told.0[id].request == m[id].request.(holdForImport := false) && told.0[id].phase == m[id].phase
                  && (told.0[id].held <==> m[id].held && m[id].phase != LaunchNotStarted && m[id].phase != TerminalVerified))
            && (!Mine(m, identity, sid) ==> told.0 == m)
  {
  }

  // ---- whole lives ----

  function AfterCalls(m: Attempts, calls: seq<Call>): Attempts
    decreases |calls|
  {
    if calls == [] then m else AfterCalls(Told(m, calls[0]).0, calls[1..])
  }

  predicate AllOk(m: Attempts, calls: seq<Call>)
    decreases |calls|
  {
    calls == [] || (Told(m, calls[0]).1.Ok? && AllOk(Told(m, calls[0]).0, calls[1..]))
  }

  lemma AfterFirst(m: Attempts, first: Call, rest: seq<Call>)
    ensures AfterCalls(m, [first] + rest) == AfterCalls(Told(m, first).0, rest)
    ensures AllOk(m, [first] + rest) <==> Told(m, first).1.Ok? && AllOk(Told(m, first).0, rest)
  {
    hide Told;
    assert ([first] + rest)[1..] == rest;
  }

  function Life(q: Request, pid: int, outcome: ProcessOutcome, exitCode: int): seq<Call> {
    [CallPrepare(q)] + ([CallTryCommitDispatch(q.identity, q.callerSid, q.operationDigest)]
    + ([CallMarkRunning(q.identity, q.callerSid, pid)]
    + ([CallRecordTerminal(q.identity, q.callerSid, outcome, exitCode, 0)] + ([CallRelease(q.identity, q.callerSid)] + []))))
  }

  /** An undisturbed attempt is prepared, dispatched, run, ended and released, and everyone else stays as they were. */
  lemma OrdinaryLife(m: Attempts, q: Request, pid: int, outcome: ProcessOutcome, exitCode: int)
    requires RequestValid(q) && !q.holdForImport && q.identity.attemptId !in m && pid > 0 && !SomeoneKeepsOut(m, q.key, q.shared)
    ensures AllOk(m, Life(q, pid, outcome, exitCode))
    ensures var after, id := AfterCalls(m, Life(q, pid, outcome, exitCode)), q.identity.attemptId;
            && after.Keys == m.Keys + {id} && (forall other :: other in m ==> after[other] == m[other])
            && after[id].phase == TerminalVerified && after[id].outcome == Some(outcome) && after[id].exitCode == Some(exitCode)
            && after[id].targetPid == Some(pid) && !after[id].held
  {
    hide Told, RequestValid, SomeoneKeepsOut;
    var who, sid := q.identity, q.callerSid;
    PrepareAnswer(m, q);
    var c1, m1 := CallTryCommitDispatch(who, sid, q.operationDigest), Told(m, CallPrepare(q)).0;
    DispatchAnswer(m1, who, sid, q.operationDigest);
    var m2 := Told(m1, c1).0;
    RunningAnswer(m2, who, sid, pid);
    var m3 := Told(m2, CallMarkRunning(who, sid, pid)).0;
    EndAndRelease(m3, who, sid, outcome, exitCode);
    var end := [CallRecordTerminal(who, sid, outcome, exitCode, 0)] + ([CallRelease(who, sid)] + []);
    AfterFirst(m2, CallMarkRunning(who, sid, pid), end);
    AfterFirst(m1, c1, [CallMarkRunning(who, sid, pid)] + end);
    AfterFirst(m, CallPrepare(q), [c1] + ([CallMarkRunning(who, sid, pid)] + end));
  }

  lemma EndAndRelease(m: Attempts, identity: Identity, sid: string, outcome: ProcessOutcome, exitCode: int)
    requires Mine(m, identity, sid) && m[identity.attemptId].phase == Running && m[identity.attemptId].held
    requires !m[identity.attemptId].request.holdForImport
    ensures var calls := [CallRecordTerminal(identity, sid, outcome, exitCode, 0)] + ([CallRelease(identity, sid)] + []);
            var after, id := AfterCalls(m, calls), identity.attemptId;
            && AllOk(m, calls) && after.Keys == m.Keys && (forall other :: other in m && other != id ==> after[other] == m[other])
            && after[id].phase == TerminalVerified && after[id].outcome == Some(outcome) && after[id].exitCode == Some(exitCode)
            && after[id].targetPid == m[id].targetPid && !after[id].held
  {
    TerminalKeepsTheRest(m, identity, sid, outcome, exitCode);
    hide Told;
    var c := CallRecordTerminal(identity, sid, outcome, exitCode, 0);
    TerminalAnswer(m, identity, sid, outcome, exitCode, 0);
    var m1 := Told(m, c).0;
    ReleaseAnswer(m1, identity, sid);
    AfterFirst(m1, CallRelease(identity, sid), []);
    AfterFirst(m, c, [CallRelease(identity, sid)] + []);
  }

  lemma TerminalKeepsTheRest(m: Attempts, identity: Identity, sid: string, outcome: ProcessOutcome, exitCode: int)
    requires Mine(m, identity, sid) && m[identity.attemptId].phase == Running
    ensures var e, f := m[identity.attemptId], Told(m, CallRecordTerminal(identity, sid, outcome, exitCode, 0)).0;
            && identity.attemptId in f
            && var g := f[identity.attemptId];
               g.targetPid == e.targetPid && g.request == e.request.(cancellationRequested := g.request.cancellationRequested)
  {
  }

  /** What is on record of any attempt in any run: which phase comes with which particulars, and who may be released. */
  lemma RecordedShape(r: Run, j: nat, id: string)
    requires Legal(r) && j < |r.worlds| && id in r.worlds[j].durable
    ensures var e := r.worlds[j].durable[id];
            && e.request.identity.attemptId == id
            && (e.targetPid.Some? ==> e.targetPid.value > 0) && (e.phase == Running ==> e.targetPid.Some?)
            && (e.phase == Prepared || e.phase == DispatchCommitted || e.phase == LaunchNotStarted ==> e.targetPid == None)
            && (e.phase == TerminationUnknown ==> e.reason.Some? && !Blank(e.reason.value))
            && (e.phase == TerminalVerified <==> e.outcome.Some?) && (e.phase == TerminalVerified <==> e.exitCode.Some?)
            && (e.phase == TerminalVerified ==> e.activeProcesses == Some(0))
            && (!e.held ==> e.phase == LaunchNotStarted || e.phase == TerminalVerified)
            && (e.request.holdForImport ==> !e.request.shared)
  {
    hide Name, Sid, DigestText, FullyQualified, Next, Blank;
    ReachableIsValid(r, j);
    hide Exclusion;
  }

  predicate IsText(t: string) { |t| <= 256 && exists i :: 0 <= i < |t| && !IsWhiteSpace(t[i]) }

  /** What every recorded attempt was asked for: all its names given, a positive generation, two digests, a full path. */
  lemma RecordedRequest(r: Run, j: nat, id: string)
    requires Legal(r) && j < |r.worlds| && id in r.worlds[j].durable
    ensures var q := r.worlds[j].durable[id].request;
            && IsText(q.identity.taskId) && IsText(q.identity.reservationId) && IsText(q.identity.attemptId)
            && IsText(q.identity.ownerClientId) && IsText(q.identity.ownerSessionId) && IsText(q.identity.workspaceId)
            && q.identity.generation >= 1 && DigestText(q.identity.requestDigest) && DigestText(q.operationDigest)
            && Sid(q.callerSid) && FullyQualified(q.key)
  {
    hide Sid, DigestText, FullyQualified, Next, IsWhiteSpace;
    ReachableIsValid(r, j);
    hide Exclusion;
  }

  // ---- when saving fails ----

  /** A call that would change the table is refused when its first save fails, and the ledger answers no more. */
  lemma FailedSaveAnswer(m: Attempts, c: Call, first: Store, second: Store)
    requires Told(m, c).0 != m && first != Works
    ensures var (w, r) := Next(World(m, m, true), Op(c, first, second));
            r == Refused(StoreUnavailable) && !w.available && (first == SaveFails ==> w.durable == m)
  {
    hide PlanOf;
  }

  lemma {:induction false} SilentUntilRestart(r: Run, i: nat, j: nat)
    requires Legal(r) && i <= j < |r.worlds| && !r.worlds[i].available
    requires forall k :: i <= k < j ==> r.events[k].Op?
    ensures r.worlds[j] == r.worlds[i]
    ensures j < |r.events| && r.events[j].Op? ==> Next(r.worlds[j], r.events[j]).1 == Refused(StoreUnavailable)
    decreases j
  {
    if i < j {
      SilentUntilRestart(r, i, j - 1);
    }
  }
}
