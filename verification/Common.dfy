/** Wrappers shared by the models. */
module Common {
  datatype Option<+T> = None | Some(value: T)

  datatype Result<+T, +E> = Ok(value: T) | Refused(reason: E)

  type byte = x: int | 0 <= x < 256

  /** The largest value of the source's 64-bit counters. */
  const ULONG_MAX: nat := 0xFFFF_FFFF_FFFF_FFFF

  /** The text of a SHA-256 digest: 64 lower-case hexadecimal digits. */
  predicate DigestText(t: string) {
    |t| == 64 && forall i :: 0 <= i < 64 ==> '0' <= t[i] <= '9' || 'a' <= t[i] <= 'f'
  }

  /** A Windows path that names its volume or server. */
  predicate FullyQualified(p: string) {
    || (|p| >= 2 && IsSeparator(p[0]) && (p[1] == '?' || IsSeparator(p[1])))
    || (|p| >= 3 && p[1] == ':' && IsSeparator(p[2]) && ('a' <= p[0] <= 'z' || 'A' <= p[0] <= 'Z'))
  }

  predicate IsSeparator(c: char) { c == '\\' || c == '/' }

  predicate IsDigit(c: char) { '0' <= c <= '9' }

  function Repeat(c: char, n: nat): (t: string)
    ensures |t| == n && forall i :: 0 <= i < n ==> t[i] == c
  {
    if n == 0 then "" else [c] + Repeat(c, n - 1)
  }

  lemma Associate<T>(a: seq<T>, b: seq<T>, c: seq<T>)
    ensures a + b + c == a + (b + c)
  {
  }

  // ---- lists of named members ----

  function IndexOf<K(==), V>(members: seq<(K, V)>, name: K): (i: nat)
    ensures i <= |members| && (i < |members| ==> members[i].0 == name)
    ensures forall k :: 0 <= k < i ==> members[k].0 != name
  {
    if members == [] || members[0].0 == name then 0 else 1 + IndexOf(members[1..], name)
  }

  predicate DistinctNames<K(==), V>(members: seq<(K, V)>) {
    forall i, j :: 0 <= i < j < |members| ==> members[i].0 != members[j].0
  }
}
