/**
 * Compaction against an uncompacted reading of the record: what a permit is, seen through the
 * watermark, and what every operation does to it.
 */
module AdmissionSettlement {
  import opened Common
  import opened AdmissionProtocol
  import opened AdmissionState
  import opened AdmissionSteps
  import opened AdmissionPreservation

  datatype PermitView = Unissued | Working | Done

  /** The status of permit `n` of `p` with no regard to whether its record has been dropped. */
  ghost function View(s: State, p: string, n: nat): PermitView {
    if p !in s.participants || n == 0 || n > s.participants[p].issued then Unissued
    else if n <= s.participants[p].settledThrough then Done
    else if PermitId(p, n) in s.permits && s.permits[PermitId(p, n)].status.Held? then Working
    else Done
  }

  lemma RecordSurvives(permits: map<string, Permit>, p: string, watermark: nat, issued: nat, q: string, i: nat)
    requires watermark <= issued && PermitId(q, i) in permits
    ensures var (records, w) := Compact(permits, p, watermark, issued);
            (PermitId(q, i) !in records <==> q == p && watermark < i <= w)
            && (PermitId(q, i) in records ==> records[PermitId(q, i)] == permits[PermitId(q, i)])
            && (PermitId(q, i) !in records ==> permits[PermitId(q, i)].status.Settled?)
  {
    CompactShape(permits, p, watermark, issued);
    var (records, w) := Compact(permits, p, watermark, issued);
    if PermitId(q, i) !in records {
      var n :| watermark < n <= w && PermitId(q, i) == PermitId(p, n);
      PermitIdInjective(q, i, p, n);
    }
  }

  /** The effect of a settling write on one permit. */
  lemma SettleView(s: State, permitId: string, p: string, n: nat, marked: map<string, Permit>, next: State, q: string, i: nat)
    requires Settles(s, permitId, p, n, marked, next)
    ensures View(next, q, i) == if q == p && i == n then Done else View(s, q, i)
  {
    hide Keyed, PermitValid;
    if q in s.participants && 1 <= i <= s.participants[q].issued {
      var m := s.participants[p];
      assert MemberValid(p, m);
      CompactShape(marked, p, m.settledThrough, m.issued);
      if i > s.participants[q].settledThrough {
        EveryOutstandingHasRecord(s, q, i);
        RecordSurvives(marked, p, m.settledThrough, m.issued, q, i);
        if PermitId(q, i) == permitId {
          PermitIdInjective(q, i, p, n);
        }
      }
    }
  }

  /**
   * Refinement: a settling write turns exactly the named permit from working to done and changes
   * nothing else, in whatever order earlier permits were settled.
   */
  lemma SettleChangesOnePermit(s: State, caller: Runtime, permitId: string, proof: Evidence)
    returns (p: string, n: nat)
    requires StateValid(s) && Settle(s, caller, permitId, proof).Write?
    ensures permitId == PermitId(p, n) && View(s, p, n) == Working
    ensures var next := Settle(s, caller, permitId, proof).next;
            forall q, i :: View(next, q, i) == if q == p && i == n then Done else View(s, q, i)
  {
    var marked, next;
    p, n, marked, next := SettlingPieces(s, caller, permitId, proof);
    forall q, i
      ensures View(next, q, i) == if q == p && i == n then Done else View(s, q, i)
    {
      SettleView(s, permitId, p, n, marked, next, q, i);
    }
  }

  /** The state a grant of the next permit to `p` produces. */
  function GrantNext(s: State, p: string, permit: Permit): State
    requires p in s.participants
  {
    var sequence := s.participants[p].issued + 1;
    s.(permits := s.permits[PermitId(p, sequence) := permit],
       participants := s.participants[p := s.participants[p].(issued := sequence)])
  }

  lemma GrantView(s: State, p: string, permit: Permit, q: string, i: nat)
    requires p in s.participants && s.participants[p].settledThrough <= s.participants[p].issued && permit.status.Held?
    ensures View(GrantNext(s, p, permit), q, i) ==
            if q == p && i == s.participants[p].issued + 1 then Working else View(s, q, i)
  {
    if PermitId(q, i) == PermitId(p, s.participants[p].issued + 1) {
      PermitIdInjective(q, i, p, s.participants[p].issued + 1);
    }
  }

  /** A grant turns exactly the next permit of its participant from unissued to working. */
  lemma GrantChangesOnePermit(s: State, caller: Runtime, p: string, sequence: nat, kind: Kind, attempt: string, parent: Option<string>)
    requires MembersValid(s.participants) && AddPermit(s, caller, p, sequence, kind, attempt, parent).Write?
    ensures View(s, p, sequence) == Unissued
    ensures var next := AddPermit(s, caller, p, sequence, kind, attempt, parent).next;
            forall q, i :: View(next, q, i) == if q == p && i == sequence then Working else View(s, q, i)
  {
    GrantPieces(s, caller, p, sequence, kind, attempt, parent);
    var next := GrantNext(s, p, Permit(p, kind, Held, attempt));
    assert MemberValid(p, s.participants[p]);
    forall q, i
      ensures View(next, q, i) == if q == p && i == sequence then Working else View(s, q, i)
    {
      GrantView(s, p, Permit(p, kind, Held, attempt), q, i);
    }
  }

  // ---- the front of the window ----

  predicate FrontHeld(s: State, p: string)
    requires p in s.participants
  {
    var m := s.participants[p];
    m.settledThrough == m.issued
    || (PermitId(p, m.settledThrough + 1) in s.permits && s.permits[PermitId(p, m.settledThrough + 1)].status.Held?)
  }

  /** No settled record waits at the front of a window. `Parse` does not ask for this. */
  ghost predicate Compacted(s: State) {
    forall p :: p in s.participants ==> FrontHeld(s, p)
  }

  lemma GrantKeepsCompacted(s: State, p: string, permit: Permit)
    requires Compacted(s) && p in s.participants && permit.status.Held?
    ensures Compacted(GrantNext(s, p, permit))
  {
    var next := GrantNext(s, p, permit);
    forall q | q in next.participants
      ensures FrontHeld(next, q)
    {
      assert FrontHeld(s, q);
    }
  }

  lemma SettledFront(s: State, p: string, permitId: string, marked: map<string, Permit>)
    requires StateValid(s) && p in s.participants && permitId in s.permits
    requires marked == s.permits[permitId := s.permits[permitId].(status := Settled)]
    ensures var m := s.participants[p];
            var (records, w) := Compact(marked, p, m.settledThrough, m.issued);
            w == m.issued || (PermitId(p, w + 1) in records && records[PermitId(p, w + 1)].status.Held?)
  {
    hide Identifier, Keyed, PermitValid;
    var m := s.participants[p];
    assert MemberValid(p, m);
    CompactStops(marked, p, m.settledThrough, m.issued);
    CompactShape(marked, p, m.settledThrough, m.issued);
    var (records, w) := Compact(marked, p, m.settledThrough, m.issued);
    if w < m.issued {
      EveryOutstandingHasRecord(s, p, w + 1);
      RecordSurvives(marked, p, m.settledThrough, m.issued, p, w + 1);
    }
  }

  lemma OtherFront(permits: map<string, Permit>, p: string, n: nat, watermark: nat, issued: nat, q: string, i: nat)
    requires watermark <= issued && q != p && PermitId(p, n) in permits
    requires PermitId(q, i) in permits && permits[PermitId(q, i)].status.Held?
    ensures var marked := permits[PermitId(p, n) := permits[PermitId(p, n)].(status := Settled)];
            var (records, _) := Compact(marked, p, watermark, issued);
            PermitId(q, i) in records && records[PermitId(q, i)].status.Held?
  {
    var marked := permits[PermitId(p, n) := permits[PermitId(p, n)].(status := Settled)];
    if PermitId(q, i) == PermitId(p, n) {
      PermitIdInjective(q, i, p, n);
    }
    RecordSurvives(marked, p, watermark, issued, q, i);
  }

  lemma OtherFrontKept(s: State, p: string, n: nat, next: State, q: string)
    requires p in s.participants && PermitId(p, n) in s.permits && q in s.participants && FrontHeld(s, q) && q != p
    requires s.participants[p].settledThrough <= s.participants[p].issued
    requires q in next.participants && next.participants[q] == s.participants[q]
    requires next.permits == Compact(s.permits[PermitId(p, n) := s.permits[PermitId(p, n)].(status := Settled)], p,
                                     s.participants[p].settledThrough, s.participants[p].issued).0
    ensures FrontHeld(next, q)
  {
    var m := s.participants[p];
    if s.participants[q].settledThrough != s.participants[q].issued {
      OtherFront(s.permits, p, n, m.settledThrough, m.issued, q, s.participants[q].settledThrough + 1);
    }
  }

  lemma SettlesKeepsCompacted(s: State, permitId: string, p: string, n: nat, marked: map<string, Permit>, next: State)
    requires Settles(s, permitId, p, n, marked, next) && Compacted(s)
    ensures Compacted(next)
  {
    hide Keyed, PermitValid, MembersValid;
    forall q | q in next.participants
      ensures FrontHeld(next, q)
    {
      if q == p {
        SettledFront(s, p, permitId, marked);
      } else {
        assert FrontHeld(s, q);
        OtherFrontKept(s, p, n, next, q);
      }
    }
  }

  lemma CountersOrdered(s: State, p: string)
    requires StateValid(s) && p in s.participants
    ensures s.participants[p].settledThrough <= s.participants[p].issued
  {
    assert MemberValid(p, s.participants[p]);
  }

  /** A member that is not active has no outstanding work, so only its status can stop its retirement. */
  lemma OnlyActiveMembersHaveWork(s: State, p: string)
    requires StateValid(s) && Compacted(s) && p in s.participants && !s.participants[p].status.Active?
    ensures s.participants[p].issued == s.participants[p].settledThrough
  {
    var front := s.participants[p].settledThrough + 1;
    CountersOrdered(s, p);
    if front <= s.participants[p].issued {
      assert FrontHeld(s, p);
      EveryOutstandingHasRecord(s, p, front);
    }
  }

  /** The second half of the retirement check never decides anything. */
  lemma RetireRefusesWorkExactlyWhenActive(s: State, caller: Runtime, p: string, proof: Evidence)
    requires StateValid(s) && Compacted(s)
    ensures RetireParticipant(s, caller, p, proof) == Refuse(WorkHeld) <==>
            Membership(s, caller, p).None?
            && proof == Evidence(OwnerCessation, caller.identity + ":" + p)
            && s.participants[p].status.Active?
  {
    if Membership(s, caller, p).None? && !s.participants[p].status.Active? {
      OnlyActiveMembersHaveWork(s, p);
    }
  }

  /** A sealed record of a compacted broker has an empty permit table. */
  lemma SealedTableIsEmpty(s: State)
    requires StateValid(s) && Compacted(s) && s.phase == Sealed
    ensures s.permits == map[]
  {
    if k :| k in s.permits {
      EveryRecordIsOutstanding(s, k);
      var p := s.permits[k].participant;
      assert p !in ActiveMembers(s);
      OnlyActiveMembersHaveWork(s, p);
    }
  }
}
