/** Bounded capture of a process's output, and the two ways a client reads it piece by piece. */
module ServiceOutput {
  import opened Common

  type Bytes = seq<byte>

  const MAXIMUM_STREAM_BYTES := 262144

  function Min(a: int, b: int): int { if a <= b then a else b }

  /** How many bytes a stream of the given limit keeps. */
  function Cap(maximum: int): (c: nat)
    ensures c <= 262144 && c <= (if maximum < 0 then 0 else maximum)
    ensures c == 262144 || c == maximum || (c == 0 && maximum < 0)
  {
    var limit := Min(maximum, MAXIMUM_STREAM_BYTES);
    if limit < 0 then 0 else limit
  }

  /** What is kept of everything received: the first bytes, up to the limit. */
  function Kept(maximum: int, received: Bytes): (b: Bytes) { received[..Min(Cap(maximum), |received|)] }

  predicate Overflows(maximum: int, received: Bytes) { |received| > Cap(maximum) }

  class BoundedOutput {
    const maximum: int
    var buffer: Bytes
    var truncated: bool
    ghost var received: Bytes

    ghost predicate Valid()
      reads this
    {
      buffer == Kept(maximum, received) && (truncated <==> Overflows(maximum, received))
    }

    constructor (m: int)
      ensures Valid() && maximum == m && received == []
    {
      maximum := m;
      buffer, truncated, received := [], false, [];
    }

    /** Takes in a chunk; says whether the snapshot changed. */
    method Append(value: Bytes) returns (changed: bool)
      requires Valid()
      modifies this
      ensures Valid() && received == old(received) + value
      ensures changed <==> buffer != old(buffer) || truncated != old(truncated)
      ensures (Stream(buffer, truncated), changed) == Appended(maximum, Stream(old(buffer), old(truncated)), value)
    {
      var wasTruncated := truncated;
      var room := Min(maximum, MAXIMUM_STREAM_BYTES) - |buffer|;
      var remaining := if room < 0 then 0 else room;
      var accepted := Min(remaining, |value|);
      assert accepted <= 0 ==> buffer + value[..accepted] == buffer;
      if accepted > 0 { buffer := buffer + value[..accepted]; }
      if accepted < |value| { truncated := true; }
      received := received + value;
      return accepted > 0 || truncated != wasTruncated;
    }

    method Snapshot() returns (b: Bytes)
      requires Valid()
      ensures b == Kept(maximum, received)
    {
      return buffer;
    }
  }

  // ---- reading ----

  datatype Refusal = CursorInvalid | OutputRewound

  datatype Snapshot = Snapshot(stdout: Bytes, stderr: Bytes, stdoutTruncated: bool, stderrTruncated: bool)

  datatype Cursor = Cursor(stdout: int, stderr: int)

  datatype Observation = Observation(stdout: Bytes, stderr: Bytes, next: Cursor)

  function Start(cursor: Option<Cursor>): Cursor { if cursor.Some? then cursor.value else Cursor(0, 0) }

  predicate Inside(s: Snapshot, c: Cursor) { 0 <= c.stdout <= |s.stdout| && 0 <= c.stderr <= |s.stderr| }

  /**
   * What a read owes its caller: a cursor inside the snapshot is answered, any other refused; with what lies
   * before the cursor, the pieces make up the snapshot, and the next cursor stands at both ends.
   */
  predicate Completes(s: Snapshot, c: Cursor, r: Result<Observation, Refusal>) {
    && (r.Ok? <==> Inside(s, c))
    && (r.Ok? ==>
          && s.stdout[..c.stdout] + r.value.stdout == s.stdout
          && s.stderr[..c.stderr] + r.value.stderr == s.stderr
          && r.value.next == Cursor(|s.stdout|, |s.stderr|))
    && (r.Refused? ==> r.reason == CursorInvalid)
  }

  /** The pieces of a snapshot past a cursor; a missing cursor is the beginning. */
  method ReadOutput(s: Snapshot, cursor: Option<Cursor>) returns (r: Result<Observation, Refusal>)
    ensures Completes(s, Start(cursor), r)
  {
    var c := if cursor.Some? then cursor.value else Cursor(0, 0);
    if c.stdout < 0 || c.stderr < 0 || c.stdout > |s.stdout| || c.stderr > |s.stderr| { return Refused(CursorInvalid); }
    return Ok(Observation(s.stdout[c.stdout..], s.stderr[c.stderr..], Cursor(|s.stdout|, |s.stderr|)));
  }

  /** The one answer that completes a read. */
  function Observed(s: Snapshot, c: Cursor): (r: Result<Observation, Refusal>)
    ensures Completes(s, c, r)
  {
    if Inside(s, c) then Ok(Observation(s.stdout[c.stdout..], s.stderr[c.stderr..], Cursor(|s.stdout|, |s.stderr|)))
    else Refused(CursorInvalid)
  }

  /** A read has only one right answer. */
  lemma CompletesOnce(s: Snapshot, c: Cursor, a: Result<Observation, Refusal>, b: Result<Observation, Refusal>)
    requires Completes(s, c, a) && Completes(s, c, b)
    ensures a == b
  {
    if a.Ok? {
      Rest(s.stdout[..c.stdout], a.value.stdout, s.stdout);
      Rest(s.stdout[..c.stdout], b.value.stdout, s.stdout);
      Rest(s.stderr[..c.stderr], a.value.stderr, s.stderr);
      Rest(s.stderr[..c.stderr], b.value.stderr, s.stderr);
    }
  }

  lemma Rest(front: Bytes, back: Bytes, whole: Bytes)
    requires front + back == whole
    ensures back == whole[|front|..]
  {
  }

  /** The stream a watching client writes to, and how far it has come. */
  class Sink {
    var written: Bytes
    var offset: nat

    constructor ()
      ensures written == [] && offset == 0
    {
      written, offset := [], 0;
    }

    /** Writes what the full output has beyond the offset; refused when the output has shrunk. */
    method WriteDelta(output: Bytes) returns (refusal: Option<Refusal>)
      modifies this
      ensures refusal.Some? <==> |output| < old(offset)
      ensures refusal.Some? ==> written == old(written) && offset == old(offset)
      ensures refusal.None? ==> offset == |output| && written == old(written) + output[old(offset)..]
    {
      if |output| < offset { return Some(OutputRewound); }
      if |output| > offset { written := written + output[offset..]; }
      offset := |output|;
      return None;
    }
  }

  // ---- a live attempt ----

  datatype Stream = Stream(buffer: Bytes, truncated: bool)

  /** One stream of the attempt after a chunk, and whether its snapshot changed. */
  function Appended(maximum: int, s: Stream, chunk: Bytes): (Stream, bool) {
    var room := Min(maximum, MAXIMUM_STREAM_BYTES) - |s.buffer|;
    var accepted := Min(if room < 0 then 0 else room, |chunk|);
    var s' := Stream(s.buffer + chunk[..accepted], s.truncated || accepted < |chunk|);
    (s', accepted > 0 || s'.truncated != s.truncated)
  }

  /** `saved` is the snapshot on disk; it is read from while `persisted`, and never again after a save has failed. */
  datatype Attempt = Attempt(maximum: int, stdout: Stream, stderr: Stream, saved: Option<Snapshot>, persisted: bool, failed: bool)

  function Live(a: Attempt): Snapshot { Snapshot(a.stdout.buffer, a.stderr.buffer, a.stdout.truncated, a.stderr.truncated) }

  function Persist(a: Attempt, saves: bool): Attempt {
    if a.failed then a
    else if saves then a.(saved := Some(Live(a)), persisted := true)
    else a.(failed := true, persisted := false)
  }

  function Shown(a: Attempt): Snapshot { if a.persisted && a.saved.Some? then a.saved.value else Live(a) }

  /** A client that remembers how far it has read of each stream, with all it was given. */
  datatype Reader = Reader(cursor: Cursor, stdout: Bytes, stderr: Bytes, refused: bool)

  function Poll(r: Reader, s: Snapshot): Reader {
    var o := Observed(s, r.cursor);
    if o.Refused? then r.(refused := true)
    else Reader(o.value.next, r.stdout + o.value.stdout, r.stderr + o.value.stderr, r.refused)
  }

  datatype World = World(attempt: Attempt, receivedOut: Bytes, receivedErr: Bytes, reader: Reader)

  datatype Event = Arrive(onStdout: bool, chunk: Bytes, saves: bool) | StreamEnds(saves: bool) | Read

  function Next(w: World, ev: Event): World {
    match ev
    case Arrive(onStdout, chunk, saves) =>
      var a := w.attempt;
      var (s', changed) := Appended(a.maximum, if onStdout then a.stdout else a.stderr, chunk);
      var a1 := if onStdout then a.(stdout := s') else a.(stderr := s');
      w.(attempt := if changed then Persist(a1, saves) else a1,
         receivedOut := if onStdout then w.receivedOut + chunk else w.receivedOut,
         receivedErr := if onStdout then w.receivedErr else w.receivedErr + chunk)
    case StreamEnds(saves) => w.(attempt := Persist(w.attempt, saves))
    case Read => w.(reader := Poll(w.reader, Shown(w.attempt)))
  }

  predicate StreamSound(maximum: int, s: Stream, received: Bytes) {
    s.buffer == Kept(maximum, received) && (s.truncated <==> Overflows(maximum, received))
  }

  predicate Sound(w: World) {
    && StreamSound(w.attempt.maximum, w.attempt.stdout, w.receivedOut)
    && StreamSound(w.attempt.maximum, w.attempt.stderr, w.receivedErr)
    && (w.attempt.persisted ==> w.attempt.saved == Some(Live(w.attempt)) && !w.attempt.failed)
    && !w.reader.refused
    && w.reader.cursor == Cursor(|w.reader.stdout|, |w.reader.stderr|)
    && w.reader.stdout <= w.attempt.stdout.buffer && w.reader.stderr <= w.attempt.stderr.buffer
  }

  /** A chunk extends what is kept, and the flag says exactly whether the snapshot changed. */
  lemma AppendedKeeps(maximum: int, s: Stream, received: Bytes, chunk: Bytes)
    requires StreamSound(maximum, s, received)
    ensures var (s', changed) := Appended(maximum, s, chunk);
            StreamSound(maximum, s', received + chunk) && s.buffer <= s'.buffer && (changed <==> s' != s)
  {
  }

  lemma NextKeeps(w: World, ev: Event)
    requires Sound(w)
    ensures Sound(Next(w, ev)) && Next(w, ev).attempt.maximum == w.attempt.maximum
  {
    hide StreamSound, Appended;
    if ev.Arrive? {
      var a := w.attempt;
      var s := if ev.onStdout then a.stdout else a.stderr;
      AppendedKeeps(a.maximum, s, if ev.onStdout then w.receivedOut else w.receivedErr, ev.chunk);
      PrefixesExtend(if ev.onStdout then w.reader.stdout else w.reader.stderr, s.buffer, Appended(a.maximum, s, ev.chunk).0.buffer);
    } else if ev.Read? {
      ShownIsLive(w.attempt);
      PollKeeps(w.reader, Live(w.attempt));
    }
  }

  lemma PrefixesExtend(a: Bytes, b: Bytes, c: Bytes)
    requires a <= b <= c
    ensures a <= c
  {
  }

  lemma ShownIsLive(a: Attempt)
    requires a.persisted ==> a.saved == Some(Live(a))
    ensures Shown(a) == Live(a)
  {
  }

  lemma PollKeeps(r: Reader, s: Snapshot)
    requires !r.refused && r.cursor == Cursor(|r.stdout|, |r.stderr|) && r.stdout <= s.stdout && r.stderr <= s.stderr
    ensures Poll(r, s) == Reader(Cursor(|s.stdout|, |s.stderr|), s.stdout, s.stderr, false)
  {
    assert r.stdout + s.stdout[|r.stdout|..] == s.stdout;
    assert r.stderr + s.stderr[|r.stderr|..] == s.stderr;
  }

  // ---- runs ----

  datatype Run = Run(worlds: seq<World>, events: seq<Event>)

  predicate Fresh(w: World) {
    && w.attempt.stdout == Stream([], false) && w.attempt.stderr == Stream([], false)
    && w.attempt.saved.None? && !w.attempt.persisted && !w.attempt.failed
    && w.receivedOut == [] && w.receivedErr == [] && w.reader == Reader(Cursor(0, 0), [], [], false)
  }

  ghost predicate Legal(r: Run) {
    && |r.worlds| == |r.events| + 1 && Fresh(r.worlds[0])
    && forall i :: 0 <= i < |r.events| ==> r.worlds[i + 1] == Next(r.worlds[i], r.events[i])
  }

  lemma {:induction false} ReachableIsSound(r: Run, i: nat)
    requires Legal(r) && i < |r.worlds|
    ensures Sound(r.worlds[i]) && r.worlds[i].attempt.maximum == r.worlds[0].attempt.maximum
  {
    if i > 0 {
      hide Next, Sound;
      ReachableIsSound(r, i - 1);
      NextKeeps(r.worlds[i - 1], r.events[i - 1]);
    }
  }

  /**
   * However the output is chunked and whenever the client reads, saves failing or not: what it has been
   * given is a prefix of what was received, with nothing lost or repeated, and right after a read it is
   * exactly what is kept.
   */
  lemma ReadsTileTheOutput(r: Run, i: nat)
    requires Legal(r) && i < |r.worlds|
    ensures var w, maximum := r.worlds[i], r.worlds[0].attempt.maximum;
            && !w.reader.refused
            && w.reader.stdout <= Kept(maximum, w.receivedOut) && w.reader.stderr <= Kept(maximum, w.receivedErr)
            && (w.attempt.stdout.truncated <==> |w.receivedOut| > Cap(maximum))
            && (i > 0 && r.events[i - 1].Read? ==>
                  w.reader.stdout == Kept(maximum, w.receivedOut) && w.reader.stderr == Kept(maximum, w.receivedErr))
  {
    ReachableIsSound(r, i);
    if i > 0 && r.events[i - 1].Read? {
      ReachableIsSound(r, i - 1);
      var w := r.worlds[i - 1];
      ShownIsLive(w.attempt);
      PollKeeps(w.reader, Live(w.attempt));
    }
  }

  // ---- the watching client ----

  /** The watching client, given ever longer outputs, is never refused and has written exactly the last of them. */
  method WatchAll(outputs: seq<Bytes>) returns (written: Bytes, refused: bool)
    requires forall i, j :: 0 <= i <= j < |outputs| ==> outputs[i] <= outputs[j]
    ensures !refused && written == if outputs == [] then [] else outputs[|outputs| - 1]
  {
    var sink := new Sink();
    refused := false;
    for i := 0 to |outputs|
      invariant !refused
      invariant sink.written == (if i == 0 then [] else outputs[i - 1]) && sink.offset == |sink.written|
    {
      if i > 0 { assert outputs[i - 1] <= outputs[i]; }
      assert sink.written + outputs[i][sink.offset..] == outputs[i];
      var refusal := sink.WriteDelta(outputs[i]);
      if refusal.Some? { refused := true; }
    }
    written := sink.written;
  }

  /** What a client that asks for everything is shown of one stream. */
  function ShownOf(w: World, onStdout: bool): Bytes {
    if onStdout then Shown(w.attempt).stdout else Shown(w.attempt).stderr
  }

  lemma ShownStep(w: World, ev: Event, onStdout: bool)
    requires Sound(w)
    ensures ShownOf(w, onStdout) <= ShownOf(Next(w, ev), onStdout)
  {
    hide StreamSound, Appended;
    NextKeeps(w, ev);
    ShownIsLive(w.attempt);
    ShownIsLive(Next(w, ev).attempt);
    if ev.Arrive? {
      var a := w.attempt;
      AppendedKeeps(a.maximum, if ev.onStdout then a.stdout else a.stderr, if ev.onStdout then w.receivedOut else w.receivedErr, ev.chunk);
    }
  }

  /** What is shown of a live attempt only grows, whether it comes from memory or from disk. */
  lemma {:induction false} ShownGrows(r: Run, i: nat, j: nat, onStdout: bool)
    requires Legal(r) && i <= j < |r.worlds|
    ensures ShownOf(r.worlds[i], onStdout) <= ShownOf(r.worlds[j], onStdout)
    decreases j
  {
    hide Next, ShownOf, Sound;
    if i < j {
      ShownGrows(r, i, j - 1, onStdout);
      ReachableIsSound(r, j - 1);
      ShownStep(r.worlds[j - 1], r.events[j - 1], onStdout);
      PrefixesExtend(ShownOf(r.worlds[i], onStdout), ShownOf(r.worlds[j - 1], onStdout), ShownOf(r.worlds[j], onStdout));
    }
  }

  /**
   * A client that watches a live attempt at any moments of any run is never refused, and has written exactly
   * what the last moment shows: the kept prefix of all that had been received by then.
   */
  method WatchAttempt(ghost r: Run, ghost moments: seq<nat>, onStdout: bool, outputs: seq<Bytes>) returns (written: Bytes, refused: bool)
    requires Legal(r) && |outputs| == |moments| > 0
    requires forall i :: 0 <= i < |moments| ==> moments[i] < |r.worlds|
    requires forall i, j :: 0 <= i <= j < |moments| ==> moments[i] <= moments[j]
    requires forall i :: 0 <= i < |outputs| ==> outputs[i] == ShownOf(r.worlds[moments[i]], onStdout)
    ensures !refused
    ensures var w := r.worlds[moments[|moments| - 1]];
            written == Kept(r.worlds[0].attempt.maximum, if onStdout then w.receivedOut else w.receivedErr)
  {
    forall i, j | 0 <= i <= j < |outputs|
      ensures outputs[i] <= outputs[j]
    {
      ShownGrows(r, moments[i], moments[j], onStdout);
    }
    written, refused := WatchAll(outputs);
    ReachableIsSound(r, moments[|moments| - 1]);
  }
}
