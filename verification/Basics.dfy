/** What several modules share. */
module Basics {

  newtype byte = x: int | 0 <= x < 256

  datatype Option<+T> = None | Some(value: T)

  function Look<K, V>(m: map<K, V>, k: K): Option<V> { if k in m then Some(m[k]) else None }

  /** `strings.Split` at one character. */
  function Split(s: string, at: char): (parts: seq<string>)
    ensures parts != []
  {
    if s == "" then [""]
    else if s[0] == at then [""] + Split(s[1..], at)
    else
      var rest := Split(s[1..], at);
      [[s[0]] + rest[0]] + rest[1..]
  }

  /** A slice of a slice. */
  lemma SliceOfSlice<T>(s: seq<T>, a: nat, b: nat, c: nat, d: nat)
    requires a <= b <= |s| && c <= d <= b - a
    ensures s[a..b][c..d] == s[a + c..a + d]
  {
    forall k | 0 <= k < d - c ensures s[a..b][c..d][k] == s[a + c..a + d][k] {
    }
  }

  /** What begins at `i` is `a`, and then `b`. */
  lemma TailIs<T>(s: seq<T>, i: nat, a: seq<T>, b: seq<T>)
    requires i <= |s| && s[i..] == a + b
    ensures i + |a| + |b| == |s| && s[i..i + |a|] == a && s[i + |a|..] == b
  {
    forall k | 0 <= k < |a| ensures s[i..i + |a|][k] == a[k] { assert s[i..][k] == (a + b)[k]; }
    forall k | 0 <= k < |b| ensures s[i + |a|..][k] == b[k] { assert s[i..][|a| + k] == (a + b)[|a| + k]; }
  }

  lemma Regroup<T>(a: seq<T>, b: seq<T>, c: seq<T>)
    ensures a + b + c == a + (b + c)
  {
  }

  /** How a storage operation ends: `Late` means that it failed after its effect was in place. */
  datatype Fault = Fine | Broken | Late
}
