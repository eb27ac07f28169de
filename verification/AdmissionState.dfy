/** The broker's durable record and the check that every save and every start applies to it. */
module AdmissionState {
  import opened Common
  import opened AdmissionProtocol

  datatype Phase = Open | Closing | Sealed

  datatype MemberStatus = Active | Quiesced | Quarantined

  datatype Member = Member(identity: string, status: MemberStatus, issued: nat, settledThrough: nat)

  /** `OtherKind` is any text that is not one of the four known kinds. */
  datatype Kind = Startup | Call | Background | Job | OtherKind(text: string)

  datatype PermitStatus = Held | Settled

  datatype Permit = Permit(participant: string, kind: Kind, status: PermitStatus, attempt: string)

  datatype State = State(
    phase: Phase, epoch: string, transaction: string, generation: nat,
    participants: map<string, Member>, permits: map<string, Permit>,
    disposition: string, finished: seq<string>)

  /** SHA-256 is injective here: a digest is represented by the record it digests. */
  datatype Digest = NoDigest | DigestOf(record: Envelope)

  datatype Envelope = Envelope(revision: nat, predecessor: Digest, state: State)

  const MAX_PARTICIPANTS := 128
  const MAX_PERMITS := 512
  const MAX_FINISHED := 256

  predicate HeaderValid(s: State) {
    && Guid(s.epoch)
    && s.generation <= ULONG_MAX
    && (if s.transaction == "" then s.generation == 0 && s.phase == Open
        else Identifier(s.transaction) && s.generation != 0)
    && (s.disposition != "" ==> s.phase == Open && Identifier(s.disposition))
    && (s.phase == Open && s.transaction != "" ==> s.disposition != "")
  }

  ghost predicate Distinct(ids: seq<string>) {
    forall i, j :: 0 <= i < j < |ids| ==> ids[i] != ids[j]
  }

  ghost predicate FinishedValid(s: State) {
    && |s.finished| <= MAX_FINISHED
    && (forall i :: 0 <= i < |s.finished| ==> Identifier(s.finished[i]))
    && Distinct(s.finished)
    && (s.transaction != "" ==> (s.transaction in s.finished) == (s.phase == Open))
  }

  predicate MemberValid(id: string, m: Member) {
    && Identifier(id) && Identifier(m.identity)
    && m.settledThrough <= m.issued <= ULONG_MAX
    && m.issued - m.settledThrough <= MAX_PERMITS
  }

  ghost predicate MembersValid(members: map<string, Member>) {
    && |members| <= MAX_PARTICIPANTS
    && (forall p :: p in members ==> MemberValid(p, members[p]))
    && (forall p, q :: p in members && q in members && members[p].identity == members[q].identity ==> p == q)
  }

  predicate PermitValid(members: map<string, Member>, key: string, permit: Permit) {
    && Identifier(key)
    && permit.participant in members
    && !permit.kind.OtherKind?
    && (if permit.kind.Job? then Identifier(permit.attempt) else permit.attempt == "")
    && (permit.status.Held? ==> members[permit.participant].status.Active?)
    && Keyed(key, permit.participant)
    && members[permit.participant].settledThrough < SequenceOf(key, permit.participant)
    && SequenceOf(key, permit.participant) <= members[permit.participant].issued
  }

  ghost predicate PermitsValid(members: map<string, Member>, permits: map<string, Permit>) {
    && |permits| <= MAX_PERMITS
    && forall k :: k in permits ==> PermitValid(members, k, permits[k])
  }

  function RecordsOf(permits: map<string, Permit>, participant: string): set<string> {
    set k | k in permits && permits[k].participant == participant
  }

  ghost predicate CountsValid(members: map<string, Member>, permits: map<string, Permit>) {
    forall p :: p in members ==> |RecordsOf(permits, p)| == members[p].issued - members[p].settledThrough
  }

  function HeldPermits(s: State): set<string> {
    set k | k in s.permits && s.permits[k].status.Held?
  }

  function ActiveMembers(s: State): set<string> {
    set p | p in s.participants && s.participants[p].status.Active?
  }

  predicate Drained(s: State) { HeldPermits(s) == {} && ActiveMembers(s) == {} }

  /** What `Parse` demands of the state inside an envelope. */
  ghost predicate StateValid(s: State) {
    && HeaderValid(s)
    && FinishedValid(s)
    && MembersValid(s.participants)
    && PermitsValid(s.participants, s.permits)
    && CountsValid(s.participants, s.permits)
    && (s.phase == Sealed ==> Drained(s))
  }

  predicate PositionValid(e: Envelope) {
    1 <= e.revision <= ULONG_MAX && (e.revision == 1) == e.predecessor.NoDigest?
  }

  ghost predicate EnvelopeValid(e: Envelope) { PositionValid(e) && StateValid(e.state) }

  /** The loop over finished transactions: bounded, well-formed and without repetition. */
  method CheckFinished(s: State) returns (ok: bool)
    ensures ok <==> FinishedValid(s)
  {
    if |s.finished| > MAX_FINISHED { return false; }
    var transactions: set<string> := {};
    for i := 0 to |s.finished|
      invariant transactions == set j | 0 <= j < i :: s.finished[j]
      invariant forall j :: 0 <= j < i ==> Identifier(s.finished[j])
      invariant Distinct(s.finished[..i])
    {
      if !Identifier(s.finished[i]) || s.finished[i] in transactions { return false; }
      transactions := transactions + {s.finished[i]};
    }
    assert s.finished[..|s.finished|] == s.finished;
    return s.transaction == "" || (s.transaction in transactions) == (s.phase == Open);
  }

  /** The loop over participants, collecting identities to find a repeated one. */
  method CheckMembers(members: map<string, Member>) returns (ok: bool)
    ensures ok <==> MembersValid(members)
  {
    if |members| > MAX_PARTICIPANTS { return false; }
    var left := members.Keys;
    var identities: set<string> := {};
    while left != {}
      invariant left <= members.Keys
      invariant identities == set p | p in members.Keys - left :: members[p].identity
      invariant forall p :: p in members.Keys - left ==> MemberValid(p, members[p])
      invariant forall p, q ::
                  p in members.Keys - left && q in members.Keys - left && members[p].identity == members[q].identity
                  ==> p == q
      decreases left
    {
      var p :| p in left;
      if !MemberValid(p, members[p]) || members[p].identity in identities {
        return false;
      }
      left := left - {p};
      identities := identities + {members[p].identity};
    }
    return true;
  }

  /** The loop over permit records. */
  method CheckPermits(members: map<string, Member>, permits: map<string, Permit>) returns (ok: bool)
    ensures ok <==> PermitsValid(members, permits)
  {
    if |permits| > MAX_PERMITS { return false; }
    var left := permits.Keys;
    while left != {}
      invariant left <= permits.Keys
      invariant forall k :: k in permits.Keys - left ==> PermitValid(members, k, permits[k])
      decreases left
    {
      var k :| k in left;
      if !PermitValid(members, k, permits[k]) { return false; }
      left := left - {k};
    }
    return true;
  }

  /** The second loop over participants, comparing record counts with the window. */
  method CheckCounts(members: map<string, Member>, permits: map<string, Permit>) returns (ok: bool)
    ensures ok <==> CountsValid(members, permits)
  {
    var left := members.Keys;
    while left != {}
      invariant left <= members.Keys
      invariant forall p :: p in members.Keys - left ==>
                  |RecordsOf(permits, p)| == members[p].issued - members[p].settledThrough
      decreases left
    {
      var p :| p in left;
      if |RecordsOf(permits, p)| != members[p].issued - members[p].settledThrough { return false; }
      left := left - {p};
    }
    return true;
  }

  /** `Parse` accepts exactly the valid envelopes. */
  method Parse(e: Envelope) returns (ok: bool)
    ensures ok <==> EnvelopeValid(e)
  {
    if !PositionValid(e) || !HeaderValid(e.state) { return false; }
    var finished := CheckFinished(e.state);
    if !finished { return false; }
    var members := CheckMembers(e.state.participants);
    if !members { return false; }
    var permits := CheckPermits(e.state.participants, e.state.permits);
    if !permits { return false; }
    var counts := CheckCounts(e.state.participants, e.state.permits);
    if !counts { return false; }
    return e.state.phase != Sealed || Drained(e.state);
  }

  /** The record an installation starts from. */
  function Initial(epoch: string): Envelope {
    Envelope(1, NoDigest, State(Open, epoch, "", 0, map[], map[], "", []))
  }

  // ---- the window of outstanding records ----

  predicate Outstanding(m: Member, n: nat) { m.settledThrough < n <= m.issued }

  /** Sequences that the counters of a member leave outstanding. */
  function Window(m: Member): set<nat> {
    set n: nat | n <= m.issued && Outstanding(m, n)
  }

  lemma {:induction false} WindowSize(m: Member)
    requires m.settledThrough <= m.issued
    ensures |Window(m)| == m.issued - m.settledThrough
    decreases m.issued
  {
    if m.issued == m.settledThrough {
      assert Window(m) == {};
    } else {
      var shorter := m.(issued := m.issued - 1);
      WindowSize(shorter);
      assert Window(m) == Window(shorter) + {m.issued};
    }
  }

  lemma {:induction false} SubsetOfSameSize<T>(a: set<T>, b: set<T>)
    requires a <= b && |a| == |b|
    ensures a == b
  {
    if exists x :: x in b && x !in a {
      var x :| x in b && x !in a;
      SubsetCardinality(a, b - {x});
    }
  }

  lemma {:induction false} SubsetCardinality<T>(a: set<T>, b: set<T>)
    requires a <= b
    ensures |a| <= |b|
  {
    if a != {} {
      var x :| x in a;
      SubsetCardinality(a - {x}, b - {x});
    }
  }

  lemma {:induction false} InjectiveImageSize(keys: set<string>, participant: string)
    requires forall k :: k in keys ==> Keyed(k, participant)
    ensures |set k | k in keys :: SequenceOf(k, participant)| == |keys|
  {
    var image := set k | k in keys :: SequenceOf(k, participant);
    if keys != {} {
      var x :| x in keys;
      InjectiveImageSize(keys - {x}, participant);
      var rest := set k | k in keys - {x} :: SequenceOf(k, participant);
      if SequenceOf(x, participant) in rest {
        var y :| y in keys - {x} && SequenceOf(y, participant) == SequenceOf(x, participant);
        KeyedIsPermitId(x, participant);
        KeyedIsPermitId(y, participant);
      }
      assert image == rest + {SequenceOf(x, participant)};
    }
  }

  /** Pigeonhole: the range and count checks leave no gap, every outstanding sequence has its record. */
  lemma EveryOutstandingHasRecord(s: State, p: string, n: nat)
    requires StateValid(s)
    requires p in s.participants && s.participants[p].settledThrough < n <= s.participants[p].issued
    ensures PermitId(p, n) in s.permits && s.permits[PermitId(p, n)].participant == p
  {
    hide Identifier, Guid, HeaderValid, FinishedValid, Keyed, SequenceOf;
    var m := s.participants[p];
    assert MemberValid(p, m);
    var keys := RecordsOf(s.permits, p);
    assert forall k :: k in keys ==> PermitValid(s.participants, k, s.permits[k]);
    InjectiveImageSize(keys, p);
    WindowSize(m);
    var image := set k | k in keys :: SequenceOf(k, p);
    assert image <= Window(m);
    SubsetOfSameSize(image, Window(m));
    assert n in image;
    var k :| k in keys && SequenceOf(k, p) == n;
    KeyedIsPermitId(k, p);
  }

  /** Conversely every record lies in its participant's window, under the one key of its sequence. */
  lemma EveryRecordIsOutstanding(s: State, k: string)
    requires StateValid(s) && k in s.permits
    ensures var p := s.permits[k].participant;
            && p in s.participants
            && Keyed(k, p) && k == PermitId(p, SequenceOf(k, p))
            && s.participants[p].settledThrough < SequenceOf(k, p) <= s.participants[p].issued
  {
    assert PermitValid(s.participants, k, s.permits[k]);
    KeyedIsPermitId(k, s.permits[k].participant);
  }
}
