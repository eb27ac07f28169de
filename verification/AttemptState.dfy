/** Records of the service attempt ledger and the checks a stored record must pass. */
module AttemptState {
  import opened Common

  datatype Phase = Prepared | DispatchCommitted | LaunchNotStarted | Running | TerminalVerified | TerminationUnknown

  datatype ProcessOutcome = Completed | Cancelled | TimedOut | Interrupted

  datatype Identity = Identity(
    taskId: string, reservationId: string, attemptId: string, generation: int, requestDigest: string,
    ownerClientId: string, ownerSessionId: string, workspaceId: string)

  datatype Request = Request(
    identity: Identity, callerSid: string, key: string, operationDigest: string,
    shared: bool, holdForImport: bool, cancellationRequested: bool, publicationCommitted: bool)

  datatype Entry = Entry(
    request: Request, phase: Phase, targetPid: Option<int>, outcome: Option<ProcessOutcome>, exitCode: Option<int>,
    activeProcesses: Option<int>, reason: Option<string>, held: bool)

  type Attempts = map<string, Entry>

  // ---- text ----

  predicate IsWhiteSpace(c: char) {
    var n := c as int;
    9 <= n <= 13 || n == 32 || n == 133 || n == 160 || n == 0x1680 || 0x2000 <= n <= 0x200A
    || n == 0x2028 || n == 0x2029 || n == 0x202F || n == 0x205F || n == 0x3000
  }

  predicate Blank(t: string) { forall i :: 0 <= i < |t| ==> IsWhiteSpace(t[i]) }

  predicate Name(t: string) { !Blank(t) && |t| <= 256 }

  /** `S-1-` followed by at least two groups of digits. */
  predicate Sid(t: string) {
    && |t| >= 7 && t[..4] == "S-1-"
    && (forall i :: 4 <= i < |t| ==> IsDigit(t[i]) || (t[i] == '-' && 4 < i < |t| - 1 && t[i - 1] != '-'))
    && exists i :: 4 < i < |t| && t[i] == '-'
  }

  function Upper(c: char): char { if 'a' <= c <= 'z' then (c as int - 32) as char else c }

  /** Case folding of reservation keys, over ASCII letters. */
  function Fold(key: string): string { seq(|key|, i requires 0 <= i < |key| => Upper(key[i])) }

  predicate SameKey(a: string, b: string) { Fold(a) == Fold(b) }

  const GLOBAL_KEY := "C:\\" + "ProgramData\\lnwjud-containment\\managed-writers"

  lemma GlobalKeyQualified()
    ensures FullyQualified(GLOBAL_KEY)
  {
    assert GLOBAL_KEY[0] == 'C' && GLOBAL_KEY[1] == ':' && GLOBAL_KEY[2] == '\\';
  }

  // ---- checks ----

  predicate RequestValid(r: Request) {
    && Name(r.identity.taskId) && Name(r.identity.reservationId) && Name(r.identity.attemptId)
    && r.identity.generation >= 1 && DigestText(r.identity.requestDigest)
    && Name(r.identity.ownerClientId) && Name(r.identity.ownerSessionId) && Name(r.identity.workspaceId)
    && Sid(r.callerSid)
    && FullyQualified(r.key)
    && !(r.holdForImport && r.shared)
    && DigestText(r.operationDigest)
  }

  predicate Ended(p: Phase) { p.LaunchNotStarted? || p.TerminalVerified? }

  predicate Launched(p: Phase) { p.DispatchCommitted? || p.Running? }

  /** What a stored record must satisfy to be loaded. */
  predicate StoredValid(e: Entry) {
    && RequestValid(e.request)
    && (e.targetPid.Some? ==> e.targetPid.value > 0)
    && (e.reason.Some? ==> |e.reason.value| <= 128)
    && (e.phase.Running? ==> e.targetPid.Some?)
    && (e.phase.TerminationUnknown? ==> e.reason.Some? && !Blank(e.reason.value))
    && (if e.phase.TerminalVerified? then e.outcome.Some? && e.exitCode.Some? && e.activeProcesses == Some(0)
        else e.outcome.None? && e.exitCode.None? && e.activeProcesses.None?)
    && (e.phase.Prepared? || e.phase.DispatchCommitted? || e.phase.LaunchNotStarted? ==> e.targetPid.None?)
    && (!e.held ==> Ended(e.phase))
  }

  predicate Conflict(a: Request, b: Request) {
    && (SameKey(a.key, b.key) || SameKey(a.key, GLOBAL_KEY) || SameKey(b.key, GLOBAL_KEY))
    && !(a.shared && b.shared)
  }

  predicate HasConflict(m: Attempts, r: Request, except: Option<string>) {
    exists id :: id in m && Some(id) != except && m[id].held && Conflict(m[id].request, r)
  }

  ghost predicate Exclusion(m: Attempts) {
    forall i, j :: i in m && j in m && i != j && m[i].held && m[j].held ==> !Conflict(m[i].request, m[j].request)
  }

  ghost predicate EntriesValid(m: Attempts) {
    forall id :: id in m ==> m[id].request.identity.attemptId == id && StoredValid(m[id])
  }

  ghost predicate LedgerValid(m: Attempts) { EntriesValid(m) && Exclusion(m) }

  // ---- restart ----

  const RESTART_REASON := "SERVICE_RESTART_REQUIRES_RECONCILIATION"

  /** A launched attempt comes back as unknown, with its reservation; everything else comes back as it was. */
  function Demote(e: Entry): Entry {
    if Launched(e.phase)
    then e.(phase := TerminationUnknown, reason := Some(RESTART_REASON), activeProcesses := None)
    else e
  }

  function Restarted(m: Attempts): Attempts { map id | id in m :: Demote(m[id]) }

  function IdOf(e: Entry): string { e.request.identity.attemptId }

  ghost predicate Listed(disk: seq<Entry>, id: string) { exists k :: 0 <= k < |disk| && IdOf(disk[k]) == id }

  /** The stored array as the constructor accepts it. */
  ghost predicate Loadable(disk: seq<Entry>) {
    && (forall k :: 0 <= k < |disk| ==> StoredValid(disk[k]))
    && (forall i, j :: 0 <= i < j < |disk| ==> IdOf(disk[i]) != IdOf(disk[j]))
    && (forall i, j :: 0 <= i < j < |disk| && disk[i].held && disk[j].held ==> !Conflict(disk[i].request, disk[j].request))
  }

  ghost predicate LoadsTo(disk: seq<Entry>, m: Attempts) {
    && (forall k :: 0 <= k < |disk| ==>
          IdOf(disk[k]) in m && m[IdOf(disk[k])] == Demote(disk[k]))
    && (forall id :: id in m ==> Listed(disk, id))
  }

  lemma ConflictSymmetric(a: Request, b: Request)
    ensures Conflict(a, b) == Conflict(b, a)
  {
  }

  lemma DemoteKeepsStoredValid(e: Entry)
    requires StoredValid(e)
    ensures StoredValid(Demote(e)) && Demote(e).held == e.held && Demote(e).request == e.request
  {
    assert !IsWhiteSpace(RESTART_REASON[0]);
  }

  /** A record whose id or reservation clashes with one loaded before it makes the array unloadable. */
  lemma ClashMeansUnloadable(disk: seq<Entry>, i: nat, m: Attempts)
    requires i < |disk| && LoadsTo(disk[..i], m)
    requires IdOf(disk[i]) in m || (disk[i].held && HasConflict(m, disk[i].request, Some(IdOf(disk[i]))))
    ensures !Loadable(disk)
  {
    hide StoredValid, Conflict;
    if IdOf(disk[i]) in m {
      assert Listed(disk[..i], IdOf(disk[i]));
      var k :| 0 <= k < i && IdOf(disk[..i][k]) == IdOf(disk[i]);
      assert IdOf(disk[k]) == IdOf(disk[i]);
    } else {
      var other :| other in m && m[other].held && Conflict(m[other].request, disk[i].request);
      assert Listed(disk[..i], other);
      var k :| 0 <= k < i && IdOf(disk[..i][k]) == other;
      assert m[IdOf(disk[..i][k])] == Demote(disk[..i][k]);
      assert disk[k].held && disk[i].held && Conflict(disk[k].request, disk[i].request);
    }
  }

  /** The loading loop of the constructor: each record is checked against the ones loaded before it. */
  method Load(disk: seq<Entry>) returns (r: Option<Attempts>, recovered: bool)
    ensures r.Some? <==> Loadable(disk)
    ensures r.Some? ==> LoadsTo(disk, r.value) && LedgerValid(r.value)
    ensures r.Some? ==> (recovered <==> exists k :: 0 <= k < |disk| && Launched(disk[k].phase))
  {
    hide StoredValid, Conflict, LedgerValid, LoadsTo;
    var m: Attempts := map[];
    recovered := false;
    EmptyLedger();
    for i := 0 to |disk|
      invariant Loadable(disk[..i]) && LoadsTo(disk[..i], m) && LedgerValid(m)
      invariant recovered <==> exists k :: 0 <= k < i && Launched(disk[k].phase)
    {
      var stored := disk[i];
      assert disk[..i + 1] == disk[..i] + [stored];
      if !StoredValid(stored) {
        return None, recovered;
      }
      var id, entry := IdOf(stored), Demote(stored);
      DemoteKeepsStoredValid(stored);
      if id in m || (entry.held && HasConflict(m, entry.request, Some(id))) {
        ClashMeansUnloadable(disk, i, m);
        return None, recovered;
      }
      AddKeepsLedger(m, id, entry);
      AddKeepsLoadable(disk[..i], m, stored);
      recovered := recovered || Launched(stored.phase);
      m := m[id := entry];
    }
    assert disk[..|disk|] == disk;
    r := Some(m);
  }

  lemma EmptyLedger()
    ensures LedgerValid(map[]) && Loadable([]) && LoadsTo([], map[])
  {
  }

  /** Adding a record that passes the incremental conflict check keeps the ledger valid. */
  lemma AddKeepsLedger(m: Attempts, id: string, e: Entry)
    requires LedgerValid(m) && id !in m && e.request.identity.attemptId == id && StoredValid(e)
    requires e.held ==> !HasConflict(m, e.request, Some(id))
    ensures LedgerValid(m[id := e])
  {
    hide StoredValid, Conflict;
    var after := m[id := e];
    forall i, j | i in after && j in after && i != j && after[i].held && after[j].held
      ensures !Conflict(after[i].request, after[j].request)
    {
      ConflictSymmetric(after[i].request, after[j].request);
    }
  }

  lemma AddKeepsLoadable(disk: seq<Entry>, m: Attempts, stored: Entry)
    requires Loadable(disk) && LoadsTo(disk, m) && StoredValid(stored)
    requires IdOf(stored) !in m
    requires stored.held ==> !HasConflict(m, stored.request, Some(IdOf(stored)))
    ensures Loadable(disk + [stored])
    ensures LoadsTo(disk + [stored], m[IdOf(stored) := Demote(stored)])
  {
    hide StoredValid, Conflict;
    var longer := disk + [stored];
    forall i, j | 0 <= i < j < |longer| && longer[i].held && longer[j].held
      ensures !Conflict(longer[i].request, longer[j].request)
    {
      if j == |disk| {
        DemoteKeepsStoredValid(disk[i]);
        assert m[IdOf(disk[i])] == Demote(disk[i]);
      }
    }
    var after := m[IdOf(stored) := Demote(stored)];
    forall id | id in after
      ensures Listed(longer, id)
    {
      if id == IdOf(stored) {
        assert IdOf(longer[|disk|]) == id;
      } else {
        var k :| 0 <= k < |disk| && IdOf(disk[k]) == id;
        assert IdOf(longer[k]) == id;
      }
    }
  }

  // ---- snapshots ----

  /** `disk` lists every entry of `m` once, in some order. */
  ghost predicate Lists(disk: seq<Entry>, m: Attempts) {
    && (forall k :: 0 <= k < |disk| ==>
          IdOf(disk[k]) in m && m[IdOf(disk[k])] == disk[k])
    && (forall i, j :: 0 <= i < j < |disk| ==> IdOf(disk[i]) != IdOf(disk[j]))
    && (forall id :: id in m ==> Listed(disk, id))
  }

  method Snapshot(m: Attempts) returns (disk: seq<Entry>)
    requires EntriesValid(m)
    ensures Lists(disk, m)
  {
    hide StoredValid;
    disk := [];
    var left := m.Keys;
    while left != {}
      invariant left <= m.Keys
      invariant forall k :: 0 <= k < |disk| ==>
                  IdOf(disk[k]) in m.Keys - left && m[IdOf(disk[k])] == disk[k]
      invariant forall i, j :: 0 <= i < j < |disk| ==> IdOf(disk[i]) != IdOf(disk[j])
      invariant forall id :: id in m.Keys - left ==> Listed(disk, id)
      decreases left
    {
      var id :| id in left;
      ghost var before := disk;
      disk := disk + [m[id]];
      forall other | other in m.Keys - (left - {id})
        ensures Listed(disk, other)
      {
        if other == id {
          assert IdOf(disk[|before|]) == other;
        } else {
          assert Listed(before, other);
          var k :| 0 <= k < |before| && IdOf(before[k]) == other;
          assert disk[k] == before[k];
        }
      }
      left := left - {id};
    }
  }

  /**
   * Restart closure: any listing of a valid ledger loads, and what it loads to is that ledger with
   * its launched attempts demoted.
   */
  lemma SnapshotsReload(disk: seq<Entry>, m: Attempts, loaded: Attempts)
    requires LedgerValid(m) && Lists(disk, m)
    ensures Loadable(disk)
    ensures LoadsTo(disk, loaded) ==> loaded == Restarted(m)
  {
    hide StoredValid, Conflict;
    if LoadsTo(disk, loaded) {
      forall id
        ensures id in loaded <==> id in m
        ensures id in m ==> loaded[id] == Demote(m[id])
      {
        if id in loaded {
          var k :| 0 <= k < |disk| && IdOf(disk[k]) == id;
        }
        if id in m {
          var k :| 0 <= k < |disk| && IdOf(disk[k]) == id;
          assert loaded[id] == Demote(disk[k]);
        }
      }
      assert loaded.Keys == Restarted(m).Keys;
    }
  }

  lemma RestartKeepsLedger(m: Attempts)
    requires LedgerValid(m)
    ensures LedgerValid(Restarted(m))
  {
    forall id | id in m
      ensures StoredValid(Demote(m[id])) && Demote(m[id]).held == m[id].held && Demote(m[id]).request == m[id].request
    {
      DemoteKeepsStoredValid(m[id]);
    }
    hide StoredValid, Conflict;
  }
}
