/** The alias-clearing journal is a redo log: whatever is interrupted, rerunning it ends in the same place. */
module StaleAliasRecovery {
  import opened Common
  import opened StaleTunnelAlias

  // ---- what clearing removes ----

  lemma LookupFinds(members: seq<(string, Value)>, i: nat)
    requires DistinctNames(members) && i < |members|
    ensures Lookup(members, members[i].0) == Some(members[i].1)
  {
    assert !(IndexOf(members, members[i].0) < i);
  }

  lemma WithoutKeepsOthers(members: seq<(string, Value)>, name: string, k: nat)
    requires Lookup(members, name).Some? && k < |members| && k != IndexOf(members, name)
    ensures var rest, i := Without(members, name), IndexOf(members, name);
            |rest| == |members| - 1 && rest[if k < i then k else k - 1] == members[k]
  {
    var i := IndexOf(members, name);
    var front, back := members[..i], members[i + 1..];
    assert Without(members, name) == front + back;
    if k < i {
      assert (front + back)[k] == front[k];
    } else {
      assert (front + back)[k - 1] == back[k - 1 - i];
    }
  }

  lemma WithoutLength(members: seq<(string, Value)>, name: string)
    requires Lookup(members, name).Some?
    ensures |Without(members, name)| == |members| - 1
  {
  }

  lemma WithoutAt(members: seq<(string, Value)>, name: string, k: nat)
    requires Lookup(members, name).Some? && k < |Without(members, name)|
    ensures |Without(members, name)| == |members| - 1
    ensures Without(members, name)[k] == members[if k < IndexOf(members, name) then k else k + 1]
  {
  }

  lemma WithoutIsDistinct(members: seq<(string, Value)>, name: string)
    requires DistinctNames(members) && Lookup(members, name).Some?
    ensures DistinctNames(Without(members, name)) && Lookup(Without(members, name), name).None?
  {
    hide Without, DistinctNames;
    var i, rest := IndexOf(members, name), Without(members, name);
    forall a, b | 0 <= a < b < |rest|
      ensures rest[a].0 != rest[b].0
    {
      WithoutAt(members, name, a);
      WithoutAt(members, name, b);
      NamesDiffer(members, if a < i then a else a + 1, if b < i then b else b + 1);
    }
    assert DistinctNames(rest) by { AreDistinct(rest); }
    var x := IndexOf(rest, name);
    if x < |rest| {
      WithoutAt(members, name, x);
      NamesDiffer(members, if x < i then x else i, if x < i then i else x + 1);
    }
  }

  lemma NamesDiffer(members: seq<(string, Value)>, a: nat, b: nat)
    requires DistinctNames(members) && a < b < |members|
    ensures members[a].0 != members[b].0
  {
  }

  lemma AreDistinct(members: seq<(string, Value)>)
    requires forall a, b :: 0 <= a < b < |members| ==> members[a].0 != members[b].0
    ensures DistinctNames(members)
  {
  }

  /** Clearing drops the one member and keeps every other, each with its value. */
  lemma ClearedEntries(b: Bytes, name: string)
    requires Parses(b) && Lookup(b.members, ALIAS).Some?
    ensures Parses(Cleared(b)) && Cleared(b) != b && |Cleared(b).members| == |b.members| - 1
    ensures Lookup(Cleared(b).members, name) == if name == ALIAS then None else Lookup(b.members, name)
  {
    hide Without;
    WithoutIsDistinct(b.members, ALIAS);
    var rest, i := Without(b.members, ALIAS), IndexOf(b.members, ALIAS);
    var y := IndexOf(b.members, name);
    if name != ALIAS && y < |b.members| {
      WithoutKeepsOthers(b.members, ALIAS, y);
      LookupFinds(rest, if y < i then y else y - 1);
    } else if name != ALIAS && IndexOf(rest, name) < |rest| {
      WithoutAt(b.members, ALIAS, IndexOf(rest, name));
    }
    WithoutLength(b.members, ALIAS);
  }

  // ---- one call ----

  ghost predicate Transitive(same: SamePath) {
    forall a, b, c :: same(a, b) && same(b, c) ==> same(a, c)
  }

  /** The journal holds a snapshot that passed every check, and each file is exactly as before or exactly as after. */
  predicate Redoable(j: Journal, same: SamePath) {
    && j.Journal? && !j.binding.recoveryOnly && j.binding.alias == ALIAS
    && SnapshotRefusal(j.binding, j.aliases, j.processes, j.binding.profile, same).None?
  }

  predicate Underway(f: Files, j: Journal, same: SamePath) {
    && Redoable(j, same) && f.journal == Some(j)
    && OldOrNew(f.aliases, j.aliases) && OldOrNew(f.processes, j.processes)
    && (f.processes == Some(Cleared(j.processes)) ==> f.aliases == Some(Cleared(j.aliases)))
  }

  /** Where the work of a journal ends. */
  function Done(j: Journal): Files
    requires j.Journal? && j.aliases.Document? && j.processes.Document?
  {
    Files(Some(Cleared(j.aliases)), Some(Cleared(j.processes)), None)
  }

  predicate Intact(f: Files, same: SamePath) { f.journal.Some? ==> Underway(f, f.journal.value, same) }

  lemma SnapshotFacts(j: Journal, same: SamePath)
    requires Redoable(j, same)
    ensures j.Journal? && Parses(j.aliases) && Parses(j.processes)
    ensures Cleared(j.aliases) != j.aliases && Cleared(j.processes) != j.processes
  {
    hide BindingValid, ProcessComplete, IdentityHolds, Cleared;
    ClearedEntries(j.aliases, ALIAS);
    ClearedEntries(j.processes, ALIAS);
  }

  /** The writes of a journal leave it under way, or done. */
  lemma WrittenGoesOn(f: Files, j: Journal, same: SamePath, steps: nat)
    requires Redoable(j, same) && (f.journal.None? || Underway(f, j, same))
    requires f.journal.None? ==> f.aliases == Some(j.aliases) && f.processes == Some(j.processes)
    ensures var (f', ok) := Written(f, j, steps);
            if ok then f' == Done(j) else Underway(f', j, same) || (f' == f && f.journal.None?)
    ensures steps >= (if f.journal.None? then 4 else 3) ==> Written(f, j, steps).1
  {
    hide Cleared, Redoable;
    SnapshotFacts(j, same);
  }

  /** A call on a journal under way stays under way or ends the work; it writes nothing else. */
  lemma ClearGoesOn(f: Files, j: Journal, r: Request, same: SamePath, stale: bool, steps: nat)
    requires Underway(f, j, same)
    ensures var f' := Clear(f, r, same, stale, steps).0; Underway(f', j, same) || f' == Done(j)
  {
    WrittenGoesOn(f, j, same, steps);
    hide SnapshotRefusal, Written, RequestRefusal, Cleared;
  }

  lemma ClearKeepsIntact(f: Files, r: Request, same: SamePath, stale: bool, steps: nat)
    requires Intact(f, same)
    ensures Intact(Clear(f, r, same, stale, steps).0, same)
  {
    if f.journal.Some? {
      ClearGoesOn(f, f.journal.value, r, same, stale, steps);
    } else if f.aliases.Some? && f.processes.Some? {
      var j := Journal(r, f.aliases.value, f.processes.value);
      if Redoable(j, same) {
        WrittenGoesOn(f, j, same, steps);
      }
      hide SnapshotRefusal, Written, Cleared;
    }
  }

  // ---- recovery ----

  /**
   * A request that takes a journal up again: for the same directory, profile and alias, either a bare
   * recovery or the very request the journal was written for.
   */
  predicate Resumes(r: Request, b: Request, same: SamePath) {
    && r.alias == ALIAS && FullyQualified(r.stateRoot) && FullyQualified(r.profile)
    && same(b.stateRoot, r.stateRoot) && same(b.profile, r.profile)
    && (if r.recoveryOnly then r.tunnelId.None? && r.pid == 0 && r.aliasesHash.None? && r.processesHash.None? else r == b)
  }

  lemma SameSnapshot(j: Journal, profile: string, same: SamePath)
    requires Redoable(j, same) && Transitive(same) && same(j.binding.profile, profile)
    ensures SnapshotRefusal(j.binding, j.aliases, j.processes, profile, same).None?
  {
    hide BindingValid, ProcessComplete;
    var alias, process := Lookup(j.aliases.members, ALIAS).value, Lookup(j.processes.members, ALIAS).value;
    assert same(Text(process, "profile_dir").value, profile) && same(Text(alias, "profile_dir").value, profile) by {
      assert same(Text(process, "profile_dir").value, j.binding.profile) && same(Text(alias, "profile_dir").value, j.binding.profile);
    }
  }

  /**
   * From any interrupted state an undisturbed call ends the work, both files new and the journal gone,
   * exactly when it resumes the journal; any other request is refused and changes nothing.
   */
  lemma RecoveryCompletesExactly(f: Files, j: Journal, r: Request, same: SamePath, steps: nat)
    requires Underway(f, j, same) && Transitive(same) && steps >= 3
    ensures Resumes(r, j.binding, same) ==>
              Clear(f, r, same, true, steps)
              == (Done(j), Ok(Outcome(true, Some(OfBytes(Cleared(j.aliases))), Some(OfBytes(Cleared(j.processes))))))
    ensures !Resumes(r, j.binding, same) ==> Clear(f, r, same, true, steps).0 == f && Clear(f, r, same, true, steps).1.Refused?
  {
    if Resumes(r, j.binding, same) { SameSnapshot(j, r.profile, same); }
    WrittenGoesOn(f, j, same, steps);
    hide SnapshotRefusal, Written, Cleared, FullyQualified;
  }

  lemma ForeignContentIsRefused(f: Files, r: Request, same: SamePath, stale: bool, steps: nat)
    requires Foreign(f)
    ensures Clear(f, r, same, stale, steps).0 == f && Clear(f, r, same, stale, steps).1.Refused?
  {
    hide SnapshotRefusal, Written, Cleared, FullyQualified;
  }

  /** A journal is on file, and a file is neither as before nor as after. */
  predicate Foreign(f: Files) {
    && f.journal.Some? && f.journal.value.Journal? && f.journal.value.aliases.Document? && f.journal.value.processes.Document?
    && (!OldOrNew(f.aliases, f.journal.value.aliases) || !OldOrNew(f.processes, f.journal.value.processes))
  }

  // ---- any number of interruptions ----

  datatype Attempt = Attempt(request: Request, stale: bool, steps: nat)

  function Rerun(f: Files, same: SamePath, attempts: seq<Attempt>): Files
    decreases |attempts|
  {
    if attempts == [] then f
    else Rerun(Clear(f, attempts[0].request, same, attempts[0].stale, attempts[0].steps).0, same, attempts[1..])
  }

  /** Whatever is asked, however often and wherever it stops, the work of a journal stays under way or is done. */
  lemma {:induction false} RerunGoesOn(f: Files, j: Journal, same: SamePath, attempts: seq<Attempt>)
    requires Underway(f, j, same) || (Redoable(j, same) && f == Done(j))
    ensures var f' := Rerun(f, same, attempts); Underway(f', j, same) || f' == Done(j)
    decreases |attempts|
  {
    hide Clear, Redoable, Underway;
    if attempts != [] {
      var a := attempts[0];
      StaysRedoable(f, j, same);
      if f == Done(j) { DoneStays(j, a.request, same, a.stale, a.steps); } else { ClearGoesOn(f, j, a.request, same, a.stale, a.steps); }
      RerunGoesOn(Clear(f, a.request, same, a.stale, a.steps).0, j, same, attempts[1..]);
    }
  }

  /** Foreign content is never written over, however often and whatever is asked. */
  lemma {:induction false} ForeignContentStays(f: Files, same: SamePath, attempts: seq<Attempt>)
    requires Foreign(f)
    ensures Rerun(f, same, attempts) == f
    decreases |attempts|
  {
    hide Clear, Foreign;
    if attempts != [] {
      var a := attempts[0];
      ForeignContentIsRefused(f, a.request, same, a.stale, a.steps);
      ForeignContentStays(f, same, attempts[1..]);
    }
  }

  lemma StaysRedoable(f: Files, j: Journal, same: SamePath)
    requires Underway(f, j, same) || Redoable(j, same)
    ensures Redoable(j, same) && j.Journal? && j.aliases.Document? && j.processes.Document?
  {
  }

  /** Once done, no request finds anything to clear: the alias is gone from the files. */
  lemma DoneStays(j: Journal, r: Request, same: SamePath, stale: bool, steps: nat)
    requires Redoable(j, same) && j.Journal? && j.aliases.Document? && j.processes.Document?
    ensures Clear(Done(j), r, same, stale, steps).0 == Done(j)
  {
    assert Lookup(Cleared(j.aliases).members, ALIAS).None? by {
      hide BindingValid, ProcessComplete, IdentityHolds;
      ClearedEntries(j.aliases, ALIAS);
    }
    hide FullyQualified, Written, BindingValid, ProcessComplete, IdentityHolds, Redoable, Parses, Without, Lookup;
  }

  /**
   * Interrupt the clearing after any number of writes, let any calls of any kind follow, each interrupted
   * in the same way, and then let one call that resumes the journal finish: the files are those of the
   * clearing that was never interrupted.
   */
  lemma InterruptionsDoNotShow(f: Files, r: Request, same: SamePath, first: nat, attempts: seq<Attempt>, last: Request)
    requires f.journal.None? && !r.recoveryOnly && Transitive(same) && Clear(f, r, same, true, 4).1.Ok?
    requires 0 < first && Resumes(last, r, same)
    ensures var interrupted := Rerun(Clear(f, r, same, true, first).0, same, attempts);
            Clear(interrupted, last, same, true, 3).0 == Clear(f, r, same, true, 4).0
  {
    var j := Journal(r, f.aliases.value, f.processes.value);
    StartsTheJournal(f, r, same, first);
    var f1 := Clear(f, r, same, true, first).0;
    hide Clear, Underway, Redoable;
    RerunGoesOn(f1, j, same, attempts);
    var f2 := Rerun(f1, same, attempts);
    if f2 == Done(j) {
      StaysRedoable(f1, j, same);
      DoneStays(j, last, same, true, 3);
    } else {
      RecoveryCompletesExactly(f2, j, last, same, 3);
    }
  }

  /** The natural retry: the caller repeats its own request. */
  lemma RetryIsEnough(f: Files, r: Request, same: SamePath, first: nat)
    requires f.journal.None? && !r.recoveryOnly && Transitive(same) && Clear(f, r, same, true, 4).1.Ok?
    requires 0 < first && same(r.stateRoot, r.stateRoot) && same(r.profile, r.profile)
    ensures Clear(Clear(f, r, same, true, first).0, r, same, true, 3).0 == Clear(f, r, same, true, 4).0
  {
    assert Resumes(r, r, same) by { hide SnapshotRefusal, Written; }
    hide Clear;
    InterruptionsDoNotShow(f, r, same, first, [], r);
  }

  lemma StartsTheJournal(f: Files, r: Request, same: SamePath, first: nat)
    requires f.journal.None? && !r.recoveryOnly && 0 < first && Clear(f, r, same, true, 4).1.Ok?
    ensures f.aliases.Some? && f.processes.Some?
    ensures var j := Journal(r, f.aliases.value, f.processes.value);
            var f' := Clear(f, r, same, true, first).0;
            Redoable(j, same) && Clear(f, r, same, true, 4).0 == Done(j) && (Underway(f', j, same) || f' == Done(j))
  {
    var j := Journal(r, f.aliases.value, f.processes.value);
    assert Redoable(j, same) by { hide Written, FullyQualified, BindingValid, IdentityHolds, ProcessComplete; }
    WrittenGoesOn(f, j, same, 4);
    WrittenGoesOn(f, j, same, first);
    WritesJournalFirst(f, j, first);
    hide SnapshotRefusal, Written, Cleared, FullyQualified;
  }

  lemma WritesJournalFirst(f: Files, j: Journal, steps: nat)
    requires j.Journal? && j.aliases.Document? && j.processes.Document? && f.journal.None? && steps > 0
    ensures Written(f, j, steps).1 || Written(f, j, steps).0.journal == Some(j)
  {
    hide Cleared;
  }

  // ---- runs ----

  /** Others who hold the state lock change the files only while no journal is on file. */
  datatype Event = Call(request: Request, stale: bool, steps: nat) | Elsewhere(aliases: Option<Bytes>, processes: Option<Bytes>)

  function Next(f: Files, same: SamePath, ev: Event): Files {
    match ev
    case Call(r, stale, steps) => Clear(f, r, same, stale, steps).0
    case Elsewhere(aliases, processes) => if f.journal.Some? then f else f.(aliases := aliases, processes := processes)
  }

  datatype Run = Run(files: seq<Files>, events: seq<Event>)

  ghost predicate Legal(r: Run, same: SamePath) {
    && |r.files| == |r.events| + 1 && r.files[0].journal.None?
    && forall i :: 0 <= i < |r.events| ==> r.files[i + 1] == Next(r.files[i], same, r.events[i])
  }

  /** In every reachable state with a journal, each file is exactly old or exactly new, and processes never lead. */
  lemma {:induction false} ReachableIsIntact(r: Run, same: SamePath, i: nat)
    requires Legal(r, same) && i < |r.files|
    ensures Intact(r.files[i], same)
  {
    hide Clear, Underway;
    if i > 0 {
      ReachableIsIntact(r, same, i - 1);
      var ev := r.events[i - 1];
      if ev.Call? { ClearKeepsIntact(r.files[i - 1], ev.request, same, ev.stale, ev.steps); }
    }
  }

  // ---- the process must be proved gone ----

  /** The outcome says that the alias was cleared, now or by the journal taken up. */
  predicate SaysCleared(o: Result<Outcome, Refusal>) { o.Ok? && (o.value.recovered || o.value.aliasesHash.Some?) }

  /** While the bound process is not proved gone, no call changes any file or says it cleared anything. */
  lemma NothingWithoutProof(f: Files, r: Request, same: SamePath, steps: nat)
    ensures Clear(f, r, same, false, steps).0 == f && !SaysCleared(Clear(f, r, same, false, steps).1)
  {
    hide SnapshotRefusal, Written, Cleared, FullyQualified, RequestRefusal, OldOrNew;
  }

  /** Whatever would be cleared were the process gone is refused for that reason alone while it is not. */
  lemma LiveProcessIsRefused(f: Files, r: Request, same: SamePath, enough: nat, steps: nat)
    requires SaysCleared(Clear(f, r, same, true, enough).1)
    ensures Clear(f, r, same, false, steps) == (f, Refused(ProcessUnverified))
  {
    hide SnapshotRefusal, Written, Cleared, FullyQualified, RequestRefusal, OldOrNew;
  }

  /** Over runs: a call that changed a file had the process proved gone. */
  lemma ChangedOnlyWithProof(r: Run, same: SamePath, i: nat)
    requires Legal(r, same) && i < |r.events| && r.events[i].Call? && r.files[i + 1] != r.files[i]
    ensures r.events[i].stale
  {
    hide Clear;
    var ev := r.events[i];
    NothingWithoutProof(r.files[i], ev.request, same, ev.steps);
  }

  // ---- what is cleared in the first place ----

  /** The entry has the field, as text. */
  predicate Says(v: Value, name: string, text: string) { v.Fields? && name in v.fields && v.fields[name] == Str(text) }

  /** The text of the entry's profile directory, empty when it has none, names the profile. */
  predicate InProfile(v: Value, profile: string, same: SamePath) {
    v.Fields? && if "profile_dir" in v.fields then v.fields["profile_dir"].Str? && same(v.fields["profile_dir"].text, profile) else same("", profile)
  }

  /** The process entry says when and from which file the process was started. */
  predicate SaysStart(v: Value) {
    && v.Fields? && "pid_start_time" in v.fields && v.fields["pid_start_time"].Str? && PositiveNumber(v.fields["pid_start_time"].text)
    && "pid_executable" in v.fields && v.fields["pid_executable"].Str? && FullyQualified(Trim(v.fields["pid_executable"].text))
  }

  /** The request names the very files there are, and in them the alias, its tunnel, its process and its profile. */
  predicate NamesWhatIsThere(r: Request, aliases: Bytes, processes: Bytes, same: SamePath) {
    && r.aliasesHash == Some(OfBytes(aliases)) && r.processesHash == Some(OfBytes(processes))
    && r.tunnelId.Some? && !IsBlank(r.tunnelId.value) && |r.tunnelId.value| <= 135 && r.pid > 0
    && Parses(aliases) && Parses(processes)
    && var alias, process := Lookup(aliases.members, "lnwjud"), Lookup(processes.members, "lnwjud");
       && alias.Some? && process.Some? && alias.value.Fields? && process.value.Fields?
       && Says(alias.value, "tunnel_id", r.tunnelId.value) && Says(process.value, "tunnel_id", r.tunnelId.value)
       && Says(process.value, "alias", "lnwjud") && Says(process.value, "mode", "process")
       && "pid" in process.value.fields && process.value.fields["pid"] == Num(r.pid)
       && InProfile(alias.value, r.profile, same) && InProfile(process.value, r.profile, same)
       && SaysStart(process.value)
  }

  lemma SaysHasText(v: Value, name: string, text: string)
    requires v.Fields? && text != ""
    ensures HasText(v, name, text) <==> Says(v, name, text)
  {
  }

  lemma IdentityIsNamed(r: Request, alias: Value, process: Value, same: SamePath)
    requires r.tunnelId.Some? && r.tunnelId.value != ""
    ensures IdentityHolds(r, alias, process, r.profile, same) <==>
              && alias.Fields? && process.Fields?
              && Says(alias, "tunnel_id", r.tunnelId.value) && Says(process, "tunnel_id", r.tunnelId.value)
              && Says(process, "alias", "lnwjud") && Says(process, "mode", "process")
              && "pid" in process.fields && process.fields["pid"] == Num(r.pid)
              && InProfile(alias, r.profile, same) && InProfile(process, r.profile, same)
  {
    if alias.Fields? && process.Fields? {
      SaysHasText(alias, "tunnel_id", r.tunnelId.value);
      SaysHasText(process, "tunnel_id", r.tunnelId.value);
      SaysHasText(process, "alias", "lnwjud");
      SaysHasText(process, "mode", "process");
      hide HasText, Says;
    }
  }

  lemma SnapshotIsNamed(r: Request, aliases: Bytes, processes: Bytes, same: SamePath)
    ensures SnapshotRefusal(r, aliases, processes, r.profile, same).None? <==> NamesWhatIsThere(r, aliases, processes, same)
  {
    hide FullyQualified, PositiveNumber, Trim, DistinctNames, Lookup, IdentityHolds, Says, InProfile, ProcessComplete, SaysStart;
    if r.tunnelId.Some? && !IsBlank(r.tunnelId.value) && Parses(aliases) && Parses(processes) {
      var alias, process := Lookup(aliases.members, ALIAS), Lookup(processes.members, ALIAS);
      if alias.Some? && process.Some? {
        assert r.tunnelId.value != "";
        IdentityIsNamed(r, alias.value, process.value, same);
        if process.value.Fields? { StartIsSaid(process.value); }
      }
    }
  }

  lemma StartIsSaid(v: Value)
    requires v.Fields?
    ensures ProcessComplete(v) <==> SaysStart(v)
  {
    hide PositiveNumber, FullyQualified;
    assert !PositiveNumber("") by { ReadsNothing(); }
    assert Trim("") == "" && !FullyQualified("") by { ReadsNothing(); }
  }

  lemma ReadsNothing()
    ensures !PositiveNumber("") && !FullyQualified("")
  {
  }

  /**
   * With no journal, the process gone and nothing interrupted, a request clears the alias exactly when it is
   * about it, in two named places, and names the files and entries that are there.
   */
  lemma FreshRequestAnswer(f: Files, r: Request, same: SamePath, steps: nat)
    requires f.journal.None? && !r.recoveryOnly && steps >= 4
    ensures var (f', o) := Clear(f, r, same, true, steps);
            var clears := r.alias == "lnwjud" && FullyQualified(r.stateRoot) && FullyQualified(r.profile)
                          && f.aliases.Some? && f.processes.Some? && NamesWhatIsThere(r, f.aliases.value, f.processes.value, same);
            && (o.Ok? <==> clears)
            && (clears ==> f' == Files(Some(Cleared(f.aliases.value)), Some(Cleared(f.processes.value)), None))
            && (!clears ==> f' == f)
  {
    if f.aliases.Some? && f.processes.Some? {
      SnapshotIsNamed(r, f.aliases.value, f.processes.value, same);
      var j := Journal(r, f.aliases.value, f.processes.value);
      if Redoable(j, same) { WrittenGoesOn(f, j, same, steps); }
    }
    hide SnapshotRefusal, NamesWhatIsThere, Written, Cleared, FullyQualified;
  }
}
