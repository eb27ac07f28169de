/** What the counters and the settled permits of a record say about the calls that led to it. */
module AdmissionHistory {
  import opened Common
  import opened AdmissionProtocol
  import opened AdmissionState
  import opened AdmissionSteps
  import opened AdmissionPreservation
  import opened AdmissionSettlement
  import opened AdmissionRuns

  /** The participant and sequence a grant asks for. */
  predicate Asks(c: Call, p: string) { (c.CallEnter? || c.CallPromote?) && c.participant == p }

  predicate GrantTook(r: Run, i: nat, p: string)
    requires i < |r.calls| < |r.records|
  {
    Asks(r.calls[i], p) && Took(r, i)
  }

  /** What a write does to the issue counter of one participant. */
  lemma IssuedStep(e: Envelope, c: Call, p: string)
    requires Decide(e, c).Write?
    ensures Asks(c, p) ==>
              p in e.state.participants && p in Decide(e, c).next.participants
              && c.sequence == e.state.participants[p].issued + 1
    ensures p in e.state.participants && p in Decide(e, c).next.participants && FreshFor(e.state, c) ==>
              Decide(e, c).next.participants[p].issued == e.state.participants[p].issued + if Asks(c, p) then 1 else 0
    ensures p !in e.state.participants && p in Decide(e, c).next.participants ==>
              c.CallRegister? && c.newId == p && Decide(e, c).next.participants[p].issued == 0
  {
    match c
    case CallEnter(caller, q, sequence, kind) => GrantPieces(e.state, caller, q, sequence, kind, "", None);
    case CallPromote(caller, q, sequence, attempt, parent) =>
      GrantPieces(e.state, caller, q, sequence, Job, attempt, Some(parent));
    case _ =>
  }

  function Grants(r: Run, j: nat, p: string): nat
    requires j <= |r.calls| < |r.records|
  {
    if j == 0 then 0 else Grants(r, j - 1, p) + if GrantTook(r, j - 1, p) then 1 else 0
  }

  ghost predicate NeverRegistered(r: Run, j: nat, p: string)
    requires j < |r.records|
  {
    forall k :: 0 <= k <= j ==> p !in r.records[k].state.participants
  }

  lemma {:induction false} NoGrantsToStrangers(r: Run, j: nat, p: string)
    requires Legal(r) && j <= |r.calls| && NeverRegistered(r, j, p)
    ensures Grants(r, j, p) == 0
  {
    hide Decide, Transition;
    if j > 0 {
      NoGrantsToStrangers(r, j - 1, p);
      if Took(r, j - 1) {
        TookWrites(r, j - 1);
        IssuedStep(r.records[j - 1], r.calls[j - 1], p);
      }
    }
  }

  /** The issue counter is the number of grants the participant has ever been given. */
  lemma {:induction false} IssuedCountsGrants(r: Run, j: nat, p: string)
    requires Legal(r) && j <= |r.calls| && p in r.records[j].state.participants
    ensures r.records[j].state.participants[p].issued == Grants(r, j, p)
  {
    hide Decide, Transition;
    if j > 0 {
      assert StepAt(r, j - 1);
      assert Fresh(r, j - 1);
      if Took(r, j - 1) {
        TookWrites(r, j - 1);
        IssuedStep(r.records[j - 1], r.calls[j - 1], p);
      }
      if p in r.records[j - 1].state.participants {
        IssuedCountsGrants(r, j - 1, p);
      } else {
        assert NeverRegistered(r, j - 1, p);
        NoGrantsToStrangers(r, j - 1, p);
      }
    }
  }

  /** Permits are granted in the order 1, 2, 3, ... per participant. */
  lemma GrantsAreSequential(r: Run, j: nat, p: string)
    requires Legal(r) && j < |r.calls| && GrantTook(r, j, p)
    ensures r.calls[j].sequence == Grants(r, j, p) + 1
  {
    TookWrites(r, j);
    IssuedStep(r.records[j], r.calls[j], p);
    IssuedCountsGrants(r, j, p);
  }

  lemma {:induction false} GrantsGrow(r: Run, i: nat, j: nat, p: string)
    requires i <= j <= |r.calls| < |r.records|
    ensures Grants(r, i, p) <= Grants(r, j, p)
  {
    if i < j {
      GrantsGrow(r, i, j - 1, p);
    }
  }

  /** No permit id is granted twice in a run, whoever asks for it. */
  lemma PermitIdsAreGrantedOnce(r: Run, i: nat, j: nat, p: string, q: string)
    requires Legal(r) && i < j < |r.calls| && GrantTook(r, i, p) && GrantTook(r, j, q)
    ensures PermitId(p, r.calls[i].sequence) != PermitId(q, r.calls[j].sequence)
  {
    if PermitId(p, r.calls[i].sequence) == PermitId(q, r.calls[j].sequence) {
      PermitIdInjective(p, r.calls[i].sequence, q, r.calls[j].sequence);
      GrantsAreSequential(r, i, p);
      GrantsAreSequential(r, j, q);
      GrantsGrow(r, i + 1, j, p);
    }
  }

  // ---- settled means settled by a call ----

  predicate SettleTook(r: Run, i: nat, permitId: string)
    requires i < |r.calls| < |r.records|
  {
    r.calls[i].CallSettle? && r.calls[i].permitId == permitId && Took(r, i)
  }

  ghost predicate SettledBefore(r: Run, j: nat, permitId: string)
    requires j <= |r.calls| < |r.records|
  {
    exists i :: 0 <= i < j && SettleTook(r, i, permitId)
  }

  /** Of all writes only `Settle` makes a permit done, and only the one it names. */
  lemma DoneStep(e: Envelope, c: Call, p: string, n: nat)
    requires StateValid(e.state) && FreshFor(e.state, c) && Decide(e, c).Write?
    requires p in e.state.participants && p in Decide(e, c).next.participants
    ensures View(Decide(e, c).next, p, n).Done? <==>
            View(e.state, p, n).Done? || (c.CallSettle? && c.permitId == PermitId(p, n))
  {
    hide StateValid;
    var s := e.state;
    match c
    case CallSettle(caller, permitId, proof) =>
      var q, m := SettleChangesOnePermit(s, caller, permitId, proof);
      assert View(Decide(e, c).next, p, n) == if p == q && n == m then Done else View(s, p, n);
      if permitId == PermitId(p, n) {
        PermitIdInjective(p, n, q, m);
      }
    case CallEnter(caller, q, sequence, kind) =>
      ValidMembers(s);
      GrantChangesOnePermit(s, caller, q, sequence, kind, "", None);
      assert View(Decide(e, c).next, p, n) == if p == q && n == sequence then Working else View(s, p, n);
    case CallPromote(caller, q, sequence, attempt, parent) =>
      ValidMembers(s);
      GrantChangesOnePermit(s, caller, q, sequence, Job, attempt, Some(parent));
      assert View(Decide(e, c).next, p, n) == if p == q && n == sequence then Working else View(s, p, n);
    case _ =>
  }

  lemma ValidMembers(s: State)
    requires StateValid(s)
    ensures MembersValid(s.participants)
  {
  }

  /** Settling names a permit of a participant that is registered at that moment. */
  lemma SettleNeedsMember(e: Envelope, c: Call, p: string, n: nat)
    requires StateValid(e.state) && c.CallSettle? && c.permitId == PermitId(p, n) && Decide(e, c).Write?
    ensures p in e.state.participants
  {
    var q, m, _, _ := SettlingPieces(e.state, c.caller, c.permitId, c.proof);
    PermitIdInjective(p, n, q, m);
  }

  lemma StrangersSettleNothing(r: Run, j: nat, p: string, n: nat)
    requires Legal(r) && j < |r.calls| && NeverRegistered(r, j, p)
    ensures !SettledBefore(r, j + 1, PermitId(p, n))
  {
    if SettledBefore(r, j + 1, PermitId(p, n)) {
      var i :| 0 <= i < j + 1 && SettleTook(r, i, PermitId(p, n));
      TookWrites(r, i);
      ReachableIsSound(r, i);
      SettleNeedsMember(r.records[i], r.calls[i], p, n);
    }
  }

  /**
   * At every moment of every run the permits that read as done, below the watermark or marked above
   * it, are exactly the ones some earlier call settled.
   */
  lemma {:induction false} DoneMeansSettled(r: Run, j: nat, p: string, n: nat)
    requires Legal(r) && j <= |r.calls| && p in r.records[j].state.participants
    ensures View(r.records[j].state, p, n).Done? <==> SettledBefore(r, j, PermitId(p, n))
  {
    hide Decide, Transition, View, Sound, SettledBefore, StateValid, PermitId, CallWellFormed;
    if j == 0 {
      NothingSettledYet(r, PermitId(p, n));
    } else {
      assert StepAt(r, j - 1);
      assert Fresh(r, j - 1);
      ReachableIsSound(r, j - 1);
      SoundIsValid(r.records[j - 1]);
      if p in r.records[j - 1].state.participants {
        DoneMeansSettled(r, j - 1, p, n);
        if Took(r, j - 1) {
          TookWrites(r, j - 1);
          DoneStep(r.records[j - 1], r.calls[j - 1], p, n);
        }
        SettledStep(r, j, PermitId(p, n));
      } else {
        TookWrites(r, j - 1);
        IssuedStep(r.records[j - 1], r.calls[j - 1], p);
        NothingIssued(r.records[j].state, p, n);
        assert NeverRegistered(r, j - 1, p);
        StrangersSettleNothing(r, j - 1, p, n);
      }
    }
  }

  lemma SettledStep(r: Run, j: nat, permitId: string)
    requires 0 < j <= |r.calls| < |r.records|
    ensures SettledBefore(r, j, permitId) <==> SettledBefore(r, j - 1, permitId) || SettleTook(r, j - 1, permitId)
  {
  }

  lemma NothingSettledYet(r: Run, permitId: string)
    requires |r.calls| < |r.records|
    ensures !SettledBefore(r, 0, permitId)
  {
  }

  lemma SoundIsValid(e: Envelope)
    requires Sound(e)
    ensures StateValid(e.state)
  {
  }

  lemma NothingIssued(s: State, p: string, n: nat)
    requires p in s.participants && s.participants[p].issued == 0
    ensures View(s, p, n) == Unissued
  {
  }
}
