/** Every operation on a state that `Parse` accepts builds a state that `Parse` accepts again. */
module AdmissionPreservation {
  import opened Common
  import opened AdmissionProtocol
  import opened AdmissionState
  import opened AdmissionSteps

  /** Everything a record relies on in its participant still holds in `after`. */
  predicate Carries(before: Member, after: Member) {
    && after.settledThrough <= before.settledThrough
    && before.issued <= after.issued
    && (before.status.Active? ==> after.status.Active?)
  }

  lemma PermitCarriesOver(members: map<string, Member>, after: map<string, Member>, k: string, permit: Permit)
    requires PermitValid(members, k, permit)
    requires permit.participant in after && Carries(members[permit.participant], after[permit.participant])
    ensures PermitValid(after, k, permit)
  {
  }

  lemma PermitsCarryOver(members: map<string, Member>, after: map<string, Member>, permits: map<string, Permit>)
    requires PermitsValid(members, permits)
    requires forall p :: p in members ==> p in after && Carries(members[p], after[p])
    ensures PermitsValid(after, permits)
  {
    forall k | k in permits
      ensures PermitValid(after, k, permits[k])
    {
      assert PermitValid(members, k, permits[k]);
      PermitCarriesOver(members, after, k, permits[k]);
    }
  }

  /** A member may be replaced by a valid one of the same identity. */
  lemma MemberReplaced(members: map<string, Member>, p: string, m: Member)
    requires MembersValid(members) && p in members
    requires MemberValid(p, m) && m.identity == members[p].identity
    ensures MembersValid(members[p := m])
  {
    hide Identifier;
    var after := members[p := m];
    assert after.Keys == members.Keys;
    assert |after| == |after.Keys| && |members| == |members.Keys|;
  }

  lemma MemberAdded(members: map<string, Member>, p: string, m: Member)
    requires MembersValid(members) && p !in members && |members| < MAX_PARTICIPANTS
    requires MemberValid(p, m) && forall q :: q in members ==> members[q].identity != m.identity
    ensures MembersValid(members[p := m])
  {
    var after := members[p := m];
    assert after.Keys == members.Keys + {p};
    assert |after| == |after.Keys| && |members| == |members.Keys|;
  }

  lemma StrangerHasNoRecords(members: map<string, Member>, permits: map<string, Permit>, p: string)
    requires PermitsValid(members, permits) && p !in members
    ensures RecordsOf(permits, p) == {}
  {
    forall k | k in permits
      ensures permits[k].participant != p
    {
      assert PermitValid(members, k, permits[k]);
    }
  }

  /** What a registration checked and what it writes. */
  lemma RegisterPieces(s: State, caller: Runtime, newId: string)
    requires Register(s, caller, newId).Write?
    ensures |s.participants| != MAX_PARTICIPANTS
    ensures forall p :: p in s.participants ==> s.participants[p].identity != caller.identity
    ensures var m := Member(caller.identity, if s.phase == Open then Active else Quarantined, 0, 0);
            Register(s, caller, newId).next == s.(participants := s.participants[newId := m])
  {
    forall p | p in s.participants
      ensures s.participants[p].identity != caller.identity
    {
      assert !KnownIdentity(s, caller.identity, p);
    }
  }

  lemma NewMemberKeepsValid(s: State, newId: string, m: Member)
    requires StateValid(s) && newId !in s.participants && |s.participants| < MAX_PARTICIPANTS
    requires MemberValid(newId, m) && m.issued == 0 && m.settledThrough == 0
    requires forall p :: p in s.participants ==> s.participants[p].identity != m.identity
    requires s.phase == Sealed ==> !m.status.Active?
    ensures StateValid(s.(participants := s.participants[newId := m]))
  {
    hide Identifier, Guid, Keyed, PermitValid;
    var n := s.(participants := s.participants[newId := m]);
    MemberAdded(s.participants, newId, m);
    PermitsCarryOver(s.participants, n.participants, s.permits);
    StrangerHasNoRecords(s.participants, s.permits, newId);
    assert HeldPermits(n) == HeldPermits(s);
    if s.phase == Sealed {
      assert ActiveMembers(n) <= ActiveMembers(s);
    }
  }

  lemma RegisterKeepsValid(s: State, caller: Runtime, newId: string)
    requires StateValid(s) && Identifier(caller.identity) && Guid(newId) && newId !in s.participants
    requires Register(s, caller, newId).Write?
    ensures StateValid(Register(s, caller, newId).next)
  {
    hide Register, Identifier, Guid, PermitsValid, CountsValid, FinishedValid, HeaderValid;
    GuidIsIdentifier(newId);
    RegisterPieces(s, caller, newId);
    assert |s.participants| <= MAX_PARTICIPANTS;
    NewMemberKeepsValid(s, newId, Member(caller.identity, if s.phase == Open then Active else Quarantined, 0, 0));
  }

  lemma PermitAdded(members: map<string, Member>, permits: map<string, Permit>, k: string, permit: Permit)
    requires PermitsValid(members, permits) && |permits| < MAX_PERMITS && k !in permits
    requires PermitValid(members, k, permit)
    ensures PermitsValid(members, permits[k := permit])
  {
    var after := permits[k := permit];
    assert after.Keys == permits.Keys + {k};
    assert |after| == |after.Keys| && |permits| == |permits.Keys|;
  }

  lemma RecordsAfterAdd(permits: map<string, Permit>, k: string, permit: Permit, q: string)
    requires k !in permits
    ensures RecordsOf(permits[k := permit], q) == RecordsOf(permits, q) + (if q == permit.participant then {k} else {})
  {
  }

  lemma CountsAfterAdd(members: map<string, Member>, permits: map<string, Permit>, k: string, permit: Permit)
    requires CountsValid(members, permits) && k !in permits && permit.participant in members
    requires MemberValid(permit.participant, members[permit.participant])
    ensures var p := permit.participant;
            CountsValid(members[p := members[p].(issued := members[p].issued + 1)], permits[k := permit])
  {
    forall q | q in members
      ensures |RecordsOf(permits[k := permit], q)| == |RecordsOf(permits, q)| + if q == permit.participant then 1 else 0
    {
      RecordsAfterAdd(permits, k, permit, q);
    }
  }

  /** The window of a member that is about to grow still has room, because the whole table has. */
  lemma RoomInWindow(members: map<string, Member>, permits: map<string, Permit>, p: string)
    requires CountsValid(members, permits) && |permits| < MAX_PERMITS && p in members
    ensures members[p].issued + 1 - members[p].settledThrough <= MAX_PERMITS
  {
    SubsetCardinality(RecordsOf(permits, p), permits.Keys);
    assert |permits| == |permits.Keys|;
  }

  lemma GrantKeepsValid(s: State, p: string, permit: Permit)
    requires StateValid(s) && p in s.participants && s.participants[p].status.Active?
    requires s.participants[p].issued < ULONG_MAX && |s.permits| < MAX_PERMITS
    requires permit.participant == p && permit.status.Held? && !permit.kind.OtherKind?
    requires if permit.kind.Job? then Identifier(permit.attempt) else permit.attempt == ""
    requires var id := PermitId(p, s.participants[p].issued + 1); Identifier(id) && id !in s.permits
    ensures var m := s.participants[p];
            StateValid(s.(permits := s.permits[PermitId(p, m.issued + 1) := permit],
                          participants := s.participants[p := m.(issued := m.issued + 1)]))
  {
    var m := s.participants[p];
    var id, members := PermitId(p, m.issued + 1), s.participants[p := m.(issued := m.issued + 1)];
    assert MemberValid(p, m) && p in ActiveMembers(s);
    PermitIdIsKeyed(p, m.issued + 1);
    RoomInWindow(s.participants, s.permits, p);
    MemberReplaced(s.participants, p, m.(issued := m.issued + 1));
    PermitsCarryOver(s.participants, members, s.permits);
    PermitAdded(members, s.permits, id, permit);
    CountsAfterAdd(s.participants, s.permits, id, permit);
  }

  /** What a grant checked and what it writes. */
  lemma GrantPieces(s: State, caller: Runtime, p: string, sequence: nat, kind: Kind, attempt: string, parent: Option<string>)
    requires AddPermit(s, caller, p, sequence, kind, attempt, parent).Write?
    ensures p in s.participants && s.participants[p].status.Active? && s.phase != Sealed
    ensures s.participants[p].identity == caller.identity && !caller.retired
    ensures sequence == s.participants[p].issued + 1 && s.participants[p].issued != ULONG_MAX
    ensures |s.permits| != MAX_PERMITS && PermitId(p, sequence) !in s.permits && Identifier(PermitId(p, sequence))
    ensures !kind.OtherKind? && (kind.Job? ==> Identifier(attempt))
    ensures AddPermit(s, caller, p, sequence, kind, attempt, parent) ==
            Write(s.(permits := s.permits[PermitId(p, sequence) := Permit(p, kind, Held, attempt)],
                     participants := s.participants[p := s.participants[p].(issued := sequence)]),
                  Granted(PermitId(p, sequence)))
  {
  }

  lemma AddPermitKeepsValid(s: State, caller: Runtime, p: string, sequence: nat, kind: Kind, attempt: string, parent: Option<string>)
    requires StateValid(s) && sequence <= ULONG_MAX && (kind.Job? || attempt == "")
    requires AddPermit(s, caller, p, sequence, kind, attempt, parent).Write?
    ensures StateValid(AddPermit(s, caller, p, sequence, kind, attempt, parent).next)
  {
    GrantPieces(s, caller, p, sequence, kind, attempt, parent);
    var permit := Permit(p, kind, Held, attempt);
    var m := s.participants[p];
    GrantKeepsValid(s, p, permit);
  }

  /** What compaction keeps, whatever the order in which permits were settled. */
  lemma {:induction false} CompactShape(permits: map<string, Permit>, p: string, watermark: nat, issued: nat)
    requires watermark <= issued
    ensures var (records, w) := Compact(permits, p, watermark, issued);
            && watermark <= w <= issued
            && records.Keys <= permits.Keys
            && (forall k :: k in records ==> records[k] == permits[k])
            && (forall k :: k in permits && k !in records ==>
                 permits[k].status.Settled? && exists n :: watermark < n <= w && k == PermitId(p, n))
            && (forall n :: watermark < n <= w ==> PermitId(p, n) in permits && PermitId(p, n) !in records)
    decreases issued - watermark
  {
    var id := PermitId(p, watermark + 1);
    if watermark < issued && id in permits && permits[id].status.Settled? {
      CompactShape(permits - {id}, p, watermark + 1, issued);
      var (records, w) := Compact(permits, p, watermark, issued);
      assert (records, w) == Compact(permits - {id}, p, watermark + 1, issued);
      forall k | k in permits && k !in records
        ensures permits[k].status.Settled? && exists n :: watermark < n <= w && k == PermitId(p, n)
      {
        if k != id {
          var n :| watermark + 1 < n <= w && k == PermitId(p, n);
        }
      }
      forall n | watermark < n <= w
        ensures PermitId(p, n) in permits && PermitId(p, n) !in records
      {
        if n != watermark + 1 {
          assert PermitId(p, n) in permits - {id};
        }
      }
    }
  }

  /** After compaction the window is empty or starts with a record that is not settled. */
  lemma {:induction false} CompactStops(permits: map<string, Permit>, p: string, watermark: nat, issued: nat)
    requires watermark <= issued
    ensures var (records, w) := Compact(permits, p, watermark, issued);
            w == issued || PermitId(p, w + 1) !in records || records[PermitId(p, w + 1)].status.Held?
    decreases issued - watermark
  {
    var id := PermitId(p, watermark + 1);
    if watermark < issued && id in permits && permits[id].status.Settled? {
      CompactStops(permits - {id}, p, watermark + 1, issued);
    }
  }

  /** Compaction moves the watermark by exactly the number of records it drops. */
  lemma {:induction false} CompactCounts(permits: map<string, Permit>, p: string, watermark: nat, issued: nat)
    requires watermark <= issued
    requires forall n :: watermark < n <= issued && PermitId(p, n) in permits ==> permits[PermitId(p, n)].participant == p
    ensures var (records, w) := Compact(permits, p, watermark, issued);
            && watermark <= w <= issued
            && |RecordsOf(permits, p)| - |RecordsOf(records, p)| == w - watermark
            && (forall q :: q != p ==> RecordsOf(records, q) == RecordsOf(permits, q))
    decreases issued - watermark
  {
    var id := PermitId(p, watermark + 1);
    if watermark < issued && id in permits && permits[id].status.Settled? {
      var less := permits - {id};
      CompactCounts(less, p, watermark + 1, issued);
      assert RecordsOf(permits, p) == RecordsOf(less, p) + {id};
      forall q | q != p
        ensures RecordsOf(less, q) == RecordsOf(permits, q)
      {
      }
    }
  }

  /** The pieces of a settling write, named: permit `n` of `p` was held, is marked, and the front is compacted. */
  ghost predicate Settles(s: State, permitId: string, p: string, n: nat, marked: map<string, Permit>, next: State) {
    && StateValid(s)
    && permitId in s.permits && permitId == PermitId(p, n)
    && p == s.permits[permitId].participant && p in s.participants
    && s.permits[permitId].status.Held?
    && s.participants[p].settledThrough < n <= s.participants[p].issued
    && marked == s.permits[permitId := s.permits[permitId].(status := Settled)]
    && (var (records, w) := Compact(marked, p, s.participants[p].settledThrough, s.participants[p].issued);
        next == s.(permits := records, participants := s.participants[p := s.participants[p].(settledThrough := w)]))
  }

  lemma SettlingPieces(s: State, caller: Runtime, permitId: string, proof: Evidence)
    returns (p: string, n: nat, marked: map<string, Permit>, next: State)
    requires StateValid(s) && Settle(s, caller, permitId, proof).Write?
    ensures Settle(s, caller, permitId, proof) == Write(next, Nothing) && Settles(s, permitId, p, n, marked, next)
  {
    p := s.permits[permitId].participant;
    EveryRecordIsOutstanding(s, permitId);
    n := SequenceOf(permitId, p);
    marked := s.permits[permitId := s.permits[permitId].(status := Settled)];
    next := Settle(s, caller, permitId, proof).next;
  }

  lemma MarkedRecords(permits: map<string, Permit>, k: string, q: string)
    requires k in permits
    ensures RecordsOf(permits[k := permits[k].(status := Settled)], q) == RecordsOf(permits, q)
  {
  }

  /** The records of `p` inside its window belong to `p`. */
  lemma MarkedBelong(s: State, p: string, k: string)
    requires StateValid(s) && p in s.participants && k in s.permits
    ensures var marked := s.permits[k := s.permits[k].(status := Settled)];
            forall i :: s.participants[p].settledThrough < i <= s.participants[p].issued && PermitId(p, i) in marked ==>
                          marked[PermitId(p, i)].participant == p
  {
    var marked := s.permits[k := s.permits[k].(status := Settled)];
    forall i | s.participants[p].settledThrough < i <= s.participants[p].issued && PermitId(p, i) in marked
      ensures marked[PermitId(p, i)].participant == p
    {
      EveryOutstandingHasRecord(s, p, i);
    }
  }

  /** The records left after compaction are valid under the raised watermark. */
  lemma CompactedPermitsValid(members: map<string, Member>, permits: map<string, Permit>, p: string, w: nat, records: map<string, Permit>)
    requires p in members && (w, records) == (Compact(permits, p, members[p].settledThrough, members[p].issued).1,
                                              Compact(permits, p, members[p].settledThrough, members[p].issued).0)
    requires members[p].settledThrough <= members[p].issued
    requires PermitsValid(members, permits)
    ensures PermitsValid(members[p := members[p].(settledThrough := w)], records)
  {
    CompactShape(permits, p, members[p].settledThrough, members[p].issued);
    SubsetCardinality(records.Keys, permits.Keys);
    assert |records| == |records.Keys| && |permits| == |permits.Keys|;
    var after := members[p := members[p].(settledThrough := w)];
    forall k | k in records
      ensures PermitValid(after, k, records[k])
    {
      assert PermitValid(members, k, permits[k]);
      if permits[k].participant == p {
        KeyedIsPermitId(k, p);
        assert SequenceOf(k, p) > w;
      }
    }
  }

  lemma MarkingKeepsPermitsValid(members: map<string, Member>, permits: map<string, Permit>, k: string)
    requires PermitsValid(members, permits) && k in permits
    ensures PermitsValid(members, permits[k := permits[k].(status := Settled)])
  {
    var marked := permits[k := permits[k].(status := Settled)];
    assert marked.Keys == permits.Keys;
    assert |marked| == |marked.Keys| && |permits| == |permits.Keys|;
    forall i | i in marked
      ensures PermitValid(members, i, marked[i])
    {
      assert PermitValid(members, i, permits[i]);
    }
  }

  lemma SettledCounts(s: State, p: string, permitId: string, marked: map<string, Permit>)
    requires StateValid(s) && p in s.participants && permitId in s.permits
    requires marked == s.permits[permitId := s.permits[permitId].(status := Settled)]
    ensures var m := s.participants[p];
            var (records, w) := Compact(marked, p, m.settledThrough, m.issued);
            m.settledThrough <= w <= m.issued && CountsValid(s.participants[p := m.(settledThrough := w)], records)
  {
    hide Identifier, Keyed, PermitValid;
    var m := s.participants[p];
    assert MemberValid(p, m);
    MarkedBelong(s, p, permitId);
    CompactCounts(marked, p, m.settledThrough, m.issued);
    forall q | q in s.participants
      ensures RecordsOf(marked, q) == RecordsOf(s.permits, q)
    {
      MarkedRecords(s.permits, permitId, q);
    }
  }

  lemma SettleKeepsValid(s: State, caller: Runtime, permitId: string, proof: Evidence)
    requires StateValid(s) && Settle(s, caller, permitId, proof).Write?
    ensures StateValid(Settle(s, caller, permitId, proof).next)
  {
    var p, n, marked, next := SettlingPieces(s, caller, permitId, proof);
    assert MemberValid(p, s.participants[p]) && permitId in HeldPermits(s);
    MarkingKeepsPermitsValid(s.participants, s.permits, permitId);
    SettledCounts(s, p, permitId, marked);
    CompactedPermitsValid(s.participants, marked, p, next.participants[p].settledThrough, next.permits);
    MemberReplaced(s.participants, p, next.participants[p]);
  }

  lemma RetireKeepsValid(s: State, caller: Runtime, p: string, proof: Evidence)
    requires StateValid(s) && RetireParticipant(s, caller, p, proof).Write?
    ensures StateValid(RetireParticipant(s, caller, p, proof).next)
  {
    var n := RetireParticipant(s, caller, p, proof).next;
    assert |RecordsOf(s.permits, p)| == 0;
    SubsetCardinality(n.participants.Keys, s.participants.Keys);
    assert |n.participants| == |n.participants.Keys| && |s.participants| == |s.participants.Keys|;
    forall k | k in n.permits
      ensures PermitValid(n.participants, k, n.permits[k])
    {
      assert PermitValid(s.participants, k, s.permits[k]);
      assert k !in RecordsOf(s.permits, p);
    }
    assert HeldPermits(n) == HeldPermits(s);
    assert ActiveMembers(n) <= ActiveMembers(s);
  }

  lemma QuietPermitsValid(members: map<string, Member>, permits: map<string, Permit>, p: string, m: Member)
    requires PermitsValid(members, permits) && p in members
    requires m == members[p].(status := Quiesced)
    requires forall k :: k in RecordsOf(permits, p) ==> !permits[k].status.Held?
    ensures PermitsValid(members[p := m], permits)
  {
    forall k | k in permits
      ensures PermitValid(members[p := m], k, permits[k])
    {
      assert PermitValid(members, k, permits[k]);
      assert permits[k].participant == p ==> k in RecordsOf(permits, p);
    }
  }

  lemma QuietKeepsValid(s: State, p: string)
    requires StateValid(s) && p in s.participants && s.participants[p].status.Active?
    requires RecordsOf(s.permits, p) * HeldPermits(s) == {}
    ensures StateValid(s.(participants := s.participants[p := s.participants[p].(status := Quiesced)]))
  {
    var m := s.participants[p].(status := Quiesced);
    MemberReplaced(s.participants, p, m);
    forall k | k in RecordsOf(s.permits, p)
      ensures !s.permits[k].status.Held?
    {
      assert k !in RecordsOf(s.permits, p) * HeldPermits(s);
    }
    QuietPermitsValid(s.participants, s.permits, p, m);
    assert p in ActiveMembers(s);
  }

  lemma QuiesceKeepsValid(s: State, caller: Runtime, p: string, proof: Evidence)
    requires StateValid(s) && Quiesce(s, caller, p, proof).Write?
    ensures StateValid(Quiesce(s, caller, p, proof).next)
  {
    hide StateValid;
    QuietKeepsValid(s, p);
  }

  lemma AllActiveKeeps(s: State)
    requires StateValid(s)
    ensures MembersValid(AllActive(s.participants))
    ensures PermitsValid(AllActive(s.participants), s.permits)
    ensures CountsValid(AllActive(s.participants), s.permits)
  {
    var after := AllActive(s.participants);
    assert after.Keys == s.participants.Keys;
    assert |after| == |after.Keys| && |s.participants| == |s.participants.Keys|;
    assert forall p :: p in after ==> MemberValid(p, s.participants[p]);
    forall k | k in s.permits
      ensures PermitValid(after, k, s.permits[k])
    {
      assert PermitValid(s.participants, k, s.permits[k]);
    }
  }

  lemma CloseKeepsValid(s: State, revision: nat, owner: Owner, expected: nat, newEpoch: string)
    requires StateValid(s) && OwnerWellFormed(owner) && Guid(newEpoch)
    requires Close(s, revision, owner, expected, newEpoch).Write?
    ensures StateValid(Close(s, revision, owner, expected, newEpoch).next)
  {
    hide MembersValid, PermitsValid, CountsValid, AllActive, Guid;
    AllActiveKeeps(s);
  }

  lemma SealKeepsValid(s: State, revision: nat, owner: Owner, expected: nat)
    requires StateValid(s) && Seal(s, revision, owner, expected).Write?
    ensures StateValid(Seal(s, revision, owner, expected).next)
  {
    var n := Seal(s, revision, owner, expected).next;
    assert HeldPermits(n) == HeldPermits(s) && ActiveMembers(n) == ActiveMembers(s);
  }

  lemma RecoverKeepsValid(s: State, revision: nat, successor: Owner, expected: nat, proof: Evidence)
    requires StateValid(s) && OwnerWellFormed(successor)
    requires RecoverOwner(s, revision, successor, expected, proof).Write?
    ensures StateValid(RecoverOwner(s, revision, successor, expected, proof).next)
  {
  }

  /**
   * `Reopen` is the one operation whose write `Parse` can reject: exactly when the finished list is
   * already full, which `Close` prevents but `Parse` does not exclude.
   */
  lemma ReopenKeepsValidExactly(s: State, revision: nat, owner: Owner, expected: nat, disposition: string, proof: Evidence)
    requires StateValid(s) && Reopen(s, revision, owner, expected, disposition, proof).Write?
    ensures StateValid(Reopen(s, revision, owner, expected, disposition, proof).next) <==> |s.finished| < MAX_FINISHED
  {
    hide MembersValid, PermitsValid, CountsValid, AllActive, Guid, Decimal;
    var n := Reopen(s, revision, owner, expected, disposition, proof).next;
    AllActiveKeeps(s);
    if |s.finished| < MAX_FINISHED {
      assert n.finished[|s.finished|] == owner.transaction;
      assert n.transaction in n.finished;
    }
  }

  function NumberedName(i: nat): string { "t" + Decimal(i) }

  function Names(count: nat): (names: seq<string>)
    ensures |names| == count
    ensures forall i :: 0 <= i < count ==> names[i] == NumberedName(i)
  {
    seq(count, i requires 0 <= i => NumberedName(i))
  }

  /** Such a state exists: sealed under a fresh transaction with 256 others already finished. */
  lemma ReopenCanBeRejected(epoch: string)
    returns (s: State, owner: Owner, proof: Evidence)
    requires Guid(epoch)
    ensures StateValid(s) && Reopen(s, 1, owner, 1, "accepted", proof).Write?
    ensures !StateValid(Reopen(s, 1, owner, 1, "accepted", proof).next)
  {
    owner := Owner("current", 1);
    s := State(Sealed, epoch, "current", 1, map[], map[], "", Names(MAX_FINISHED));
    proof := Evidence(AcceptedDisposition, "current" + ":" + Decimal(1) + ":" + epoch + ":" + "accepted");
    forall i | 0 <= i < MAX_FINISHED
      ensures Identifier(s.finished[i]) && s.finished[i] != "current"
    {
      DecimalShape(i);
      assert Pow10(3) == 1000;
      DecimalLength(i, 3);
      assert s.finished[i][0] == 't';
      assert "current"[0] == 'c';
    }
    forall i, j | 0 <= i < j < MAX_FINISHED
      ensures s.finished[i] != s.finished[j]
    {
      if s.finished[i] == s.finished[j] {
        assert s.finished[i][1..] == Decimal(i) && s.finished[j][1..] == Decimal(j);
        DecimalInjective(i, j);
      }
    }
    ReopenKeepsValidExactly(s, 1, owner, 1, "accepted", proof);
  }
}
