/** Fixed-width unsigned integers, most significant byte first. */
module BigEndian {
  import opened Basics

  type u16 = x: nat | x < 0x1_0000
  type u32 = x: nat | x < 0x1_0000_0000
  type u64 = x: nat | x < 0x1_0000_0000_0000_0000

  function Power(width: nat): (p: nat)
    ensures p > 0
  {
    if width == 0 then 1 else 256 * Power(width - 1)
  }

  lemma PowerValues()
    ensures Power(2) == 0x1_0000 && Power(4) == 0x1_0000_0000 && Power(8) == 0x1_0000_0000_0000_0000
  {
  }

  function Put(n: nat, width: nat): (s: seq<byte>)
    ensures |s| == width
  {
    if width == 0 then [] else Put(n / 256, width - 1) + [(n % 256) as byte]
  }

  function Get(s: seq<byte>): nat {
    if s == [] then 0 else 256 * Get(s[..|s| - 1]) + s[|s| - 1] as nat
  }

  lemma {:induction false} GetPut(n: nat, width: nat)
    requires n < Power(width)
    ensures Get(Put(n, width)) == n
  {
    if width > 0 {
      GetPut(n / 256, width - 1);
      var s := Put(n, width);
      assert s[..|s| - 1] == Put(n / 256, width - 1);
    }
  }

  lemma {:induction false} PutGet(s: seq<byte>)
    ensures Get(s) < Power(|s|) && Put(Get(s), |s|) == s
  {
    if s != [] {
      var n := |s| - 1;
      PutGet(s[..n]);
      assert Get(s) / 256 == Get(s[..n]) && Get(s) % 256 == s[n] as nat;
      assert s == s[..n] + [s[n]];
    }
  }

  /** The parts of a concatenation are where one expects them. */
  lemma Parts4(t: seq<byte>, a: seq<byte>, b: seq<byte>, c: seq<byte>, d: seq<byte>)
    ensures var m, i, j, k, l := t + a + b + c + d, |t|, |t| + |a|, |t| + |a| + |b|, |t| + |a| + |b| + |c|;
      && m[..i] == t && m[i..j] == a && m[j..k] == b && m[k..l] == c && m[l..] == d && m[l..l + |d|] == d
  {
  }

  /** A sequence is its consecutive slices. */
  lemma Whole4(m: seq<byte>, i: nat, j: nat, k: nat, l: nat)
    requires i <= j <= k <= l <= |m|
    ensures m == m[..i] + m[i..j] + m[j..k] + m[k..l] + m[l..]
  {
  }

  lemma Parts3(t: seq<byte>, a: seq<byte>, b: seq<byte>, c: seq<byte>)
    ensures var m, i, j, k := t + a + b + c, |t|, |t| + |a|, |t| + |a| + |b|;
      m[..i] == t && m[i..j] == a && m[j..k] == b && m[k..] == c
  {
  }

  lemma Whole3(m: seq<byte>, i: nat, j: nat, k: nat)
    requires i <= j <= k <= |m|
    ensures m == m[..i] + m[i..j] + m[j..k] + m[k..]
  {
  }
}
