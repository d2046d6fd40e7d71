/** Release versions (internal/hostservice/update_unix.go). */
module ReleaseVersion {
  import opened Basics

  const MAX_PART: nat := 0xFFFF_FFFF

  function Digit(c: char): nat
    requires '0' <= c <= '9'
  {
    c as nat - '0' as nat
  }

  datatype Parsed = Parsed(value: nat, ok: bool)

  /** `strconv.ParseUint` of 32 bits: 0 on a syntax error, the largest value when out of range. */
  function ParseFrom(s: string, n: nat): Parsed {
    if s == "" then Parsed(n, true)
    else if !('0' <= s[0] <= '9') then Parsed(0, false)
    else if 10 * n + Digit(s[0]) > MAX_PART then Parsed(MAX_PART, false)
    else ParseFrom(s[1..], 10 * n + Digit(s[0]))
  }

  function ParsePart(s: string): Parsed { if s == "" then Parsed(0, false) else ParseFrom(s, 0) }

  /** Component `i` of a version; missing ones are 0. */
  function Part(version: string, i: nat): nat {
    var parts := Split(version, '.');
    if i < |parts| then ParsePart(parts[i]).value else 0
  }

  predicate Valid(version: string) {
    var parts := Split(version, '.');
    3 <= |parts| <= 4 && forall i :: 0 <= i < |parts| ==> ParsePart(parts[i]).ok
  }

  predicate AgreeTo(a: string, b: string, n: nat) { forall i :: 0 <= i < n ==> Part(a, i) == Part(b, i) }

  /** Older: at the first of the four components that differ, smaller. */
  predicate Precedes(a: string, b: string) {
    exists k :: 0 <= k < 4 && AgreeTo(a, b, k) && Part(a, k) < Part(b, k)
  }

  method CompareRelease(left: string, right: string) returns (c: int)
    ensures -1 <= c <= 1
    ensures c < 0 <==> Precedes(left, right)
    ensures c > 0 <==> Precedes(right, left)
    ensures c == 0 <==> AgreeTo(left, right, 4)
  {
    for index := 0 to 4
      invariant AgreeTo(left, right, index)
    {
      var l, r := Part(left, index), Part(right, index);
      if l < r {
        FirstDifference(left, right, index);
        return -1;
      }
      if l > r {
        FirstDifference(right, left, index);
        return 1;
      }
    }
    SameNeverPrecedes(left, right);
    return 0;
  }

  lemma FirstDifference(a: string, b: string, k: nat)
    requires k < 4 && AgreeTo(a, b, k) && Part(a, k) < Part(b, k)
    ensures Precedes(a, b) && !Precedes(b, a) && !AgreeTo(a, b, 4)
  {
  }

  lemma SameNeverPrecedes(a: string, b: string)
    requires AgreeTo(a, b, 4)
    ensures !Precedes(a, b) && !Precedes(b, a)
  {
  }

  /** Being older is a strict order, and two versions are unordered only when they agree: an update
      can never be followed by one that goes back to it. */
  lemma PrecedesIsOrder(a: string, b: string, c: string)
    ensures !(Precedes(a, b) && Precedes(b, a))
    ensures Precedes(a, b) || Precedes(b, a) || AgreeTo(a, b, 4)
    ensures Precedes(a, b) && Precedes(b, c) ==> Precedes(a, c)
  {
    if Precedes(a, b) {
      var j :| 0 <= j < 4 && AgreeTo(a, b, j) && Part(a, j) < Part(b, j);
      FirstDifference(a, b, j);
      if Precedes(b, c) {
        var k :| 0 <= k < 4 && AgreeTo(b, c, k) && Part(b, k) < Part(c, k);
        var m := if j < k then j else k;
        assert AgreeTo(a, c, m);
        assert m < j ==> Part(a, m) == Part(b, m);
        assert m < k ==> Part(b, m) == Part(c, m);
        assert Part(a, m) < Part(c, m);
      }
    } else if !Precedes(b, a) {
      Unordered(a, b, 4);
    }
  }

  lemma {:induction false} Unordered(a: string, b: string, n: nat)
    requires n <= 4 && !Precedes(a, b) && !Precedes(b, a)
    ensures AgreeTo(a, b, n)
  {
    if n > 0 {
      Unordered(a, b, n - 1);
      assert AgreeTo(b, a, n - 1);
    }
  }
}
