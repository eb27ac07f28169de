/** The text forms of the admission broker: decimal positions, identifiers and permit keys. */
module AdmissionProtocol {
  import opened Common

  predicate AllDigits(t: string) { forall i :: 0 <= i < |t| ==> IsDigit(t[i]) }

  predicate IdentifierChar(c: char) {
    'a' <= c <= 'z' || 'A' <= c <= 'Z' || IsDigit(c) || c == '-' || c == '_' || c == '.'
  }

  predicate Identifier(t: string) {
    1 <= |t| <= 128 && forall i :: 0 <= i < |t| ==> IdentifierChar(t[i])
  }

  predicate IsHex(c: char) { IsDigit(c) || 'a' <= c <= 'f' || 'A' <= c <= 'F' }

  /** The hyphenated form of a GUID: 8-4-4-4-12 hexadecimal digits. */
  predicate Guid(t: string) {
    && |t| == 36
    && forall i :: 0 <= i < 36 ==> if i in {8, 13, 18, 23} then t[i] == '-' else IsHex(t[i])
  }

  function Digit(d: nat): char
    requires d < 10
  {
    ('0' as int + d) as char
  }

  function DigitValue(c: char): nat
    requires IsDigit(c)
  {
    c as int - '0' as int
  }

  /** The invariant-culture text of a position. */
  function Decimal(v: nat): string {
    if v < 10 then [Digit(v)] else Decimal(v / 10) + [Digit(v % 10)]
  }

  function Value(t: string): nat
    requires AllDigits(t)
  {
    if t == "" then 0 else 10 * Value(t[..|t| - 1]) + DigitValue(t[|t| - 1])
  }

  /** Reads a position back; `None` is the source's refusal. */
  function ParseDecimal(t: string): Option<nat> {
    if !(1 <= |t| <= 20) || (|t| > 1 && t[0] == '0') || !AllDigits(t) || Value(t) > ULONG_MAX then None
    else Some(Value(t))
  }

  function Pow10(k: nat): nat { if k == 0 then 1 else 10 * Pow10(k - 1) }

  /** Position text is never empty, is all digits, never has a leading zero, and denotes its value. */
  lemma {:induction false} DecimalShape(v: nat)
    ensures |Decimal(v)| >= 1 && AllDigits(Decimal(v)) && Value(Decimal(v)) == v
    ensures Decimal(v)[0] == '0' ==> v == 0
    ensures |Decimal(v)| > 1 ==> Decimal(v)[0] != '0'
  {
    var t := Decimal(v);
    if v < 10 {
      assert t[..0] == "";
    } else {
      DecimalShape(v / 10);
      assert t[..|t| - 1] == Decimal(v / 10);
    }
  }

  lemma {:induction false} DecimalLength(v: nat, k: nat)
    requires k >= 1 && v < Pow10(k)
    ensures |Decimal(v)| <= k
  {
    if v >= 10 {
      assert Pow10(1) == 10;
      DecimalLength(v / 10, k - 1);
    }
  }

  /** Every 64-bit value survives being written and read back. */
  lemma ParseOfDecimal(v: nat)
    requires v <= ULONG_MAX
    ensures ParseDecimal(Decimal(v)) == Some(v)
  {
    DecimalShape(v);
    assert Pow10(20) == 100_000_000_000_000_000_000 by {
      assert Pow10(5) == 100_000;
      assert Pow10(10) == 10_000_000_000;
      assert Pow10(15) == 1_000_000_000_000_000;
    }
    DecimalLength(v, 20);
  }

  lemma {:induction false} ValuePositive(t: string)
    requires AllDigits(t) && |t| >= 1 && t[0] != '0'
    ensures Value(t) >= 1
  {
    if |t| > 1 {
      ValuePositive(t[..|t| - 1]);
    }
  }

  lemma {:induction false} DecimalOfValue(t: string)
    requires AllDigits(t) && |t| >= 1 && (|t| > 1 ==> t[0] != '0')
    ensures Decimal(Value(t)) == t
  {
    if |t| == 1 {
      assert t[..0] == "";
    } else {
      var front := t[..|t| - 1];
      ValuePositive(front);
      DecimalOfValue(front);
      assert Value(t) / 10 == Value(front) && Value(t) % 10 == DigitValue(t[|t| - 1]);
    }
  }

  /** Every accepted text is the one text of its value: the two conversions are inverse bijections. */
  lemma DecimalOfParse(t: string)
    requires ParseDecimal(t).Some?
    ensures Decimal(ParseDecimal(t).value) == t
  {
    DecimalOfValue(t);
  }

  lemma DecimalInjective(m: nat, n: nat)
    requires Decimal(m) == Decimal(n)
    ensures m == n
  {
    DecimalShape(m);
    DecimalShape(n);
  }

  lemma GuidIsIdentifier(t: string)
    requires Guid(t)
    ensures Identifier(t)
  {
    forall i | 0 <= i < |t|
      ensures IdentifierChar(t[i])
    {
      assert if i in {8, 13, 18, 23} then t[i] == '-' else IsHex(t[i]);
    }
  }

  /** The key of a permit record. */
  function PermitId(participant: string, sequence: nat): string {
    participant + "." + Decimal(sequence)
  }

  /** `LastIndexOf('.')`, -1 when there is none. */
  function LastDot(t: string): (i: int)
    ensures -1 <= i < |t|
    ensures i >= 0 ==> t[i] == '.'
    ensures forall j :: i < j < |t| ==> t[j] != '.'
  {
    if t == "" then -1
    else if t[|t| - 1] == '.' then |t| - 1
    else LastDot(t[..|t| - 1])
  }

  /** The last dot always separates participant from sequence, however many dots the participant has. */
  lemma LastDotSplits(participant: string, sequence: nat)
    ensures LastDot(PermitId(participant, sequence)) == |participant|
    ensures PermitId(participant, sequence)[..|participant|] == participant
    ensures PermitId(participant, sequence)[|participant| + 1..] == Decimal(sequence)
  {
    var t := PermitId(participant, sequence);
    DecimalShape(sequence);
    assert t[|participant|] == '.';
    forall j | |participant| < j < |t|
      ensures t[j] != '.'
    {
      assert t[j] == Decimal(sequence)[j - |participant| - 1];
    }
  }

  /** A permit key names one participant and one sequence. */
  lemma PermitIdInjective(p: string, m: nat, q: string, n: nat)
    requires PermitId(p, m) == PermitId(q, n)
    ensures p == q && m == n
  {
    LastDotSplits(p, m);
    LastDotSplits(q, n);
    DecimalInjective(m, n);
  }

  /** The form `Parse` demands of a key filed under `participant`. */
  predicate Keyed(key: string, participant: string) {
    && |key| > |participant|
    && key[..|participant| + 1] == participant + "."
    && ParseDecimal(key[|participant| + 1..]).Some?
  }

  function SequenceOf(key: string, participant: string): nat
    requires Keyed(key, participant)
  {
    ParseDecimal(key[|participant| + 1..]).value
  }

  /** Accepted keys are exactly the ones the broker writes. */
  lemma KeyedIsPermitId(key: string, participant: string)
    requires Keyed(key, participant)
    ensures key == PermitId(participant, SequenceOf(key, participant))
  {
    DecimalOfParse(key[|participant| + 1..]);
    assert key == key[..|participant| + 1] + key[|participant| + 1..];
  }

  lemma PermitIdIsKeyed(participant: string, sequence: nat)
    requires sequence <= ULONG_MAX
    ensures Keyed(PermitId(participant, sequence), participant)
    ensures SequenceOf(PermitId(participant, sequence), participant) == sequence
  {
    LastDotSplits(participant, sequence);
    ParseOfDecimal(sequence);
    var t := PermitId(participant, sequence);
    assert t[..|participant| + 1] == participant + ".";
  }
}
