/** Clearing a stale alias from two state files through a redo journal. */
module StaleTunnelAlias {
  import opened Common
  import AdmissionProtocol

  const ALIAS := "lnwjud"

  datatype Scalar = Str(text: string) | Num(number: int) | OtherScalar(raw: string)

  datatype Value = Fields(fields: map<string, Scalar>) | OtherValue(raw: string)

  /**
   * The bytes of a state file. A document is its members in order and how it is laid out; the
   * serializer always writes layout 0. Equal values stand for equal bytes.
   */
  datatype Bytes = Document(members: seq<(string, Value)>, layout: nat) | Malformed(raw: string)

  /** A digest is represented by the bytes it digests, or is some other text. */
  datatype Hash = OfBytes(bytes: Bytes) | OtherHash(text: string)

  datatype Request = Request(
    stateRoot: string, alias: string, profile: string, recoveryOnly: bool,
    tunnelId: Option<string>, pid: int, aliasesHash: Option<Hash>, processesHash: Option<Hash>)

  datatype Journal = Journal(binding: Request, aliases: Bytes, processes: Bytes) | Unreadable

  datatype Files = Files(aliases: Option<Bytes>, processes: Option<Bytes>, journal: Option<Journal>)

  datatype Outcome = Outcome(recovered: bool, aliasesHash: Option<Hash>, processesHash: Option<Hash>)

  datatype Refusal =
    | RequestInvalid | JournalInvalid | JournalBindingChanged | SnapshotChanged | StateInvalid | IdentityChanged
    | ProcessIdentityIncomplete | ProcessUnverified | FileUnavailable | ReadbackChanged | Interrupted

  /** Path comparison is the operating system's; the proofs use only that it is transitive. */
  type SamePath = (string, string) -> bool

  // ---- documents ----

  /** What the source parses: an object in which no name repeats. */
  predicate Parses(b: Bytes) { b.Document? && DistinctNames(b.members) }

  function Lookup(members: seq<(string, Value)>, name: string): Option<Value> {
    var i := IndexOf(members, name);
    if i < |members| then Some(members[i].1) else None
  }

  /** The members without one name, the others in their order. */
  function Without(members: seq<(string, Value)>, name: string): seq<(string, Value)> {
    var i := IndexOf(members, name);
    if i < |members| then members[..i] + members[i + 1..] else members
  }

  function Cleared(b: Bytes): Bytes
    requires b.Document?
  {
    Document(Without(b.members, ALIAS), 0)
  }

  // ---- checks ----

  /** The text of a field, empty when missing; `None` when it is not text. */
  function Text(v: Value, name: string): Option<string>
    requires v.Fields?
  {
    if name !in v.fields then Some("") else if v.fields[name].Str? then Some(v.fields[name].text) else None
  }

  predicate HasText(v: Value, name: string, text: string)
    requires v.Fields?
  {
    Text(v, name) == Some(text)
  }

  predicate HasPath(v: Value, path: string, same: SamePath)
    requires v.Fields?
  {
    Text(v, "profile_dir").Some? && same(Text(v, "profile_dir").value, path)
  }

  predicate ValidHash(h: Option<Hash>) { h.Some? && (h.value.OfBytes? || DigestText(h.value.text)) }

  predicate IsBlank(t: string) { forall i :: 0 <= i < |t| ==> t[i] in " \t\r\n" }

  function Trim(t: string): string {
    if t == "" then ""
    else if t[0] in " \t\r\n" then Trim(t[1..])
    else if t[|t| - 1] in " \t\r\n" then Trim(t[..|t| - 1])
    else t
  }

  predicate BindingValid(b: Request) {
    && b.pid > 0 && b.tunnelId.Some? && !IsBlank(b.tunnelId.value) && |b.tunnelId.value| <= 135
    && ValidHash(b.aliasesHash) && ValidHash(b.processesHash)
  }

  /** The two entries name the bound tunnel, process and profile. */
  predicate IdentityHolds(b: Request, alias: Value, process: Value, profile: string, same: SamePath)
    requires b.tunnelId.Some?
  {
    && alias.Fields? && process.Fields?
    && HasText(alias, "tunnel_id", b.tunnelId.value) && HasText(process, "tunnel_id", b.tunnelId.value)
    && HasText(process, "alias", ALIAS) && HasText(process, "mode", "process")
    && "pid" in process.fields && process.fields["pid"] == Num(b.pid)
    && HasPath(process, profile, same) && HasPath(alias, profile, same)
  }

  /** Digits only, and a positive number that fits 63 bits. */
  predicate PositiveNumber(t: string) {
    t != "" && AdmissionProtocol.AllDigits(t) && 0 < AdmissionProtocol.Value(t) <= 0x7FFF_FFFF_FFFF_FFFF
  }

  predicate ProcessComplete(process: Value) {
    && process.Fields?
    && Text(process, "pid_start_time").Some? && PositiveNumber(Text(process, "pid_start_time").value)
    && Text(process, "pid_executable").Some? && FullyQualified(Trim(Text(process, "pid_executable").value))
  }

  /** Every check made on the snapshot the work is bound to, before anything is written. */
  function SnapshotRefusal(b: Request, aliases: Bytes, processes: Bytes, profile: string, same: SamePath): Option<Refusal> {
    if !BindingValid(b) then Some(RequestInvalid)
    else if b.aliasesHash != Some(OfBytes(aliases)) || b.processesHash != Some(OfBytes(processes)) then Some(SnapshotChanged)
    else if !Parses(aliases) || !Parses(processes) then Some(StateInvalid)
    else
      var alias, process := Lookup(aliases.members, ALIAS), Lookup(processes.members, ALIAS);
      if alias.None? || process.None? || !IdentityHolds(b, alias.value, process.value, profile, same) then Some(IdentityChanged)
      else if !ProcessComplete(process.value) then Some(ProcessIdentityIncomplete)
      else None
  }

  predicate OldOrNew(actual: Option<Bytes>, was: Bytes)
    requires was.Document?
  {
    actual == Some(was) || actual == Some(Cleared(was))
  }

  function RequestRefusal(f: Files, r: Request, same: SamePath): Option<Refusal> {
    if r.recoveryOnly && (r.tunnelId.Some? || r.pid != 0 || r.aliasesHash.Some? || r.processesHash.Some?) then Some(RequestInvalid)
    else if f.journal.None? then if f.aliases.None? || f.processes.None? then Some(FileUnavailable) else None
    else if f.journal.value.Unreadable? then Some(JournalInvalid)
    else
      var b := f.journal.value.binding;
      if b.recoveryOnly || !same(b.stateRoot, r.stateRoot) || !same(b.profile, r.profile) || b.alias != r.alias
         || (!r.recoveryOnly && b != r)
      then Some(JournalBindingChanged) else None
  }

  // ---- the four writes ----

  /** Runs the writes in order until `steps` of them are done; the journal comes first and goes last. */
  function Written(f: Files, j: Journal, steps: nat): (Files, bool)
    requires j.Journal? && j.aliases.Document? && j.processes.Document?
  {
    var newAliases, newProcesses := Cleared(j.aliases), Cleared(j.processes);
    if f.journal.None? then
      if steps == 0 then (f, false) else WrittenFiles(f.(journal := Some(j)), newAliases, newProcesses, steps - 1)
    else WrittenFiles(f, newAliases, newProcesses, steps)
  }

  function WrittenFiles(f: Files, newAliases: Bytes, newProcesses: Bytes, steps: nat): (Files, bool) {
    if f.aliases == Some(newAliases) then WrittenProcesses(f, newProcesses, steps)
    else if steps == 0 then (f, false)
    else WrittenProcesses(f.(aliases := Some(newAliases)), newProcesses, steps - 1)
  }

  function WrittenProcesses(f: Files, newProcesses: Bytes, steps: nat): (Files, bool) {
    if f.processes == Some(newProcesses) then JournalRemoved(f, steps)
    else if steps == 0 then (f, false)
    else JournalRemoved(f.(processes := Some(newProcesses)), steps - 1)
  }

  function JournalRemoved(f: Files, steps: nat): (Files, bool) {
    if steps == 0 then (f, false) else (f.(journal := None), true)
  }

  /** The snapshot the work is bound to: the journal's, or the files as they are. */
  function Bound(f: Files, r: Request): Journal
    requires f.journal.None? ==> f.aliases.Some? && f.processes.Some?
  {
    if f.journal.Some? then f.journal.value else Journal(r, f.aliases.value, f.processes.value)
  }

  /** `stale` is whether the bound process was proved gone; `steps` is how many writes happen before a crash. */
  function Clear(f: Files, r: Request, same: SamePath, stale: bool, steps: nat): (Files, Result<Outcome, Refusal>) {
    if r.alias != ALIAS || !FullyQualified(r.stateRoot) || !FullyQualified(r.profile) then (f, Refused(RequestInvalid))
    else if r.recoveryOnly && f.journal.None? then (f, Ok(Outcome(false, None, None)))
    else if RequestRefusal(f, r, same).Some? then (f, Refused(RequestRefusal(f, r, same).value))
    else
      var j := Bound(f, r);
      var refusal := SnapshotRefusal(j.binding, j.aliases, j.processes, r.profile, same);
      if refusal.Some? then (f, Refused(refusal.value))
      else if f.aliases.None? || f.processes.None? then (f, Refused(FileUnavailable))
      else if !OldOrNew(f.aliases, j.aliases) || !OldOrNew(f.processes, j.processes) then (f, Refused(SnapshotChanged))
      else if !stale then (f, Refused(ProcessUnverified))
      else
        var (f', ok) := Written(f, j, steps);
        (f', if ok then Ok(Outcome(f.journal.Some?, Some(OfBytes(Cleared(j.aliases))), Some(OfBytes(Cleared(j.processes)))))
             else Refused(Interrupted))
  }

  // ---- the state directory ----

  class StateDirectory {
    var aliases: Option<Bytes>
    var processes: Option<Bytes>
    var journal: Option<Journal>

    ghost function Contents(): Files
      reads this
    {
      Files(aliases, processes, journal)
    }

    constructor (files: Files)
      ensures Contents() == files
    {
      aliases, processes, journal := files.aliases, files.processes, files.journal;
    }

    /** Journal, aliases, processes, and the journal's removal; what is in place already is not written again. */
    method Redo(bound: Journal, steps: nat) returns (done: bool)
      requires bound.Journal? && bound.aliases.Document? && bound.processes.Document?
      modifies this
      ensures (Contents(), done) == Written(old(Contents()), bound, steps)
    {
      hide Cleared;
      var newAliases, newProcesses := Cleared(bound.aliases), Cleared(bound.processes);
      var left := steps;
      if journal.None? {
        if left == 0 { return false; }
        journal, left := Some(bound), left - 1;
      }
      if aliases != Some(newAliases) {
        if left == 0 { return false; }
        aliases, left := Some(newAliases), left - 1;
      }
      if processes != Some(newProcesses) {
        if left == 0 { return false; }
        processes, left := Some(newProcesses), left - 1;
      }
      if aliases != Some(newAliases) || processes != Some(newProcesses) || left == 0 { return false; }
      journal := None;
      return true;
    }

    method ClearAlias(r: Request, same: SamePath, stale: bool, steps: nat) returns (result: Result<Outcome, Refusal>)
      modifies this
      ensures (Contents(), result) == Clear(old(Contents()), r, same, stale, steps)
    {
      hide FullyQualified, BindingValid, IdentityHolds, ProcessComplete, Cleared, Written;
      if r.alias != ALIAS || !FullyQualified(r.stateRoot) || !FullyQualified(r.profile) { return Refused(RequestInvalid); }
      var recovering := journal.Some?;
      if r.recoveryOnly && !recovering { return Ok(Outcome(false, None, None)); }
      var refusal := RequestRefusal(Files(aliases, processes, journal), r, same);
      if refusal.Some? { return Refused(refusal.value); }
      var bound := if recovering then journal.value else Journal(r, aliases.value, processes.value);
      refusal := SnapshotRefusal(bound.binding, bound.aliases, bound.processes, r.profile, same);
      if refusal.Some? { return Refused(refusal.value); }
      if aliases.None? || processes.None? { return Refused(FileUnavailable); }
      var newAliases, newProcesses := Cleared(bound.aliases), Cleared(bound.processes);
      if (aliases.value != bound.aliases && aliases.value != newAliases)
         || (processes.value != bound.processes && processes.value != newProcesses)
      {
        return Refused(SnapshotChanged);
      }
      if !stale { return Refused(ProcessUnverified); }
      var done := Redo(bound, steps);
      if !done { return Refused(Interrupted); }
      return Ok(Outcome(recovering, Some(OfBytes(newAliases)), Some(OfBytes(newProcesses))));
    }
  }
}
