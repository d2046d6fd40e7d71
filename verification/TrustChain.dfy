/** The signed chain of trust bundles (internal/update/trust.go). Signatures, encodings and version
    syntax are arbitrary functions. */
module TrustChain {
  import opened Basics
  import opened Paths

  type Key = string

  datatype Envelope = Envelope(signer: string, bundle: string, signature: string)

  datatype Bundle = Bundle(generation: nat, issued: int, keys: map<string, string>,
                           revokedKeys: seq<string>, revokedVersions: seq<string>)

  /** `decode` yields nothing for what is not a complete, well-formed bundle. */
  datatype Crypto = Crypto(verify: (Key, string, string) -> bool, decode: string -> Option<Bundle>,
                           decodeKey: (string, string) -> Option<Key>, validVersion: string -> bool)

  const MAX_BUNDLES: nat := 32
  const MAX_KEYS: nat := 32
  const CLOCK_SKEW: int := 60

  datatype Trust = Trust(keys: map<string, Key>, revokedKeys: set<string>, revokedVersions: set<string>,
                         generation: nat, envelopes: seq<Envelope>)

  function Initial(keys: map<string, Key>): Trust { Trust(keys, {}, {}, 0, []) }

  function Elements(values: seq<string>): set<string> { set v | v in values }

  /** No empty value, no repetition, and everything that was revoked before. */
  ghost predicate Cumulative(values: seq<string>, previous: set<string>) {
    && (forall i :: 0 <= i < |values| ==> values[i] != "")
    && (forall i, j :: 0 <= i < j < |values| ==> values[i] != values[j])
    && previous <= Elements(values)
  }

  ghost predicate KeysDecode(c: Crypto, keys: map<string, string>) {
    forall k :: k in keys ==> c.decodeKey(k, keys[k]).Some?
  }

  ghost function DecodedKeys(c: Crypto, keys: map<string, string>): map<string, Key>
    requires KeysDecode(c, keys)
  {
    map k | k in keys :: c.decodeKey(k, keys[k]).value
  }

  ghost predicate SomeActive(keys: map<string, Key>, revoked: set<string>) { exists k :: k in keys && k !in revoked }

  /** What `applyLocked` demands of a bundle, apart from its signature. */
  ghost predicate Admissible(c: Crypto, s: Trust, b: Bundle, now: int) {
    && b.generation > s.generation && b.issued <= now + CLOCK_SKEW
    && 0 < |b.keys| <= MAX_KEYS && KeysDecode(c, b.keys)
    && Cumulative(b.revokedKeys, s.revokedKeys) && Cumulative(b.revokedVersions, s.revokedVersions)
    && (forall v :: v in b.revokedVersions ==> c.validVersion(v))
    && SomeActive(DecodedKeys(c, b.keys), Elements(b.revokedKeys))
  }

  /** Signed by a key that is trusted and not revoked. */
  predicate Signed(c: Crypto, s: Trust, e: Envelope) {
    && e.signer != "" && e.signer in s.keys && e.signer !in s.revokedKeys
    && c.verify(s.keys[e.signer], e.bundle, e.signature)
  }

  ghost predicate Accepts(c: Crypto, s: Trust, e: Envelope, now: int) {
    && |s.envelopes| < MAX_BUNDLES && Signed(c, s, e)
    && c.decode(e.bundle).Some? && Admissible(c, s, c.decode(e.bundle).value, now)
  }

  ghost function After(c: Crypto, s: Trust, e: Envelope, now: int): Trust
    requires Accepts(c, s, e, now)
  {
    var b := c.decode(e.bundle).value;
    Trust(DecodedKeys(c, b.keys), Elements(b.revokedKeys), Elements(b.revokedVersions), b.generation, s.envelopes + [e])
  }

  /** What a bundle replaces. */
  datatype Update = Update(keys: map<string, Key>, revokedKeys: set<string>, revokedVersions: set<string>, generation: nat)

  ghost function UpdateOf(c: Crypto, b: Bundle): Update
    requires KeysDecode(c, b.keys)
  {
    Update(DecodedKeys(c, b.keys), Elements(b.revokedKeys), Elements(b.revokedVersions), b.generation)
  }

  // ----- loading -----

  /** Applies the envelopes in turn; fails when one is refused. */
  ghost function Replay(c: Crypto, s: Trust, es: seq<Envelope>, now: int): Option<Trust> {
    if es == [] then Some(s)
    else
      var n := |es| - 1;
      match Replay(c, s, es[..n], now)
      case None => None
      case Some(t) => if Accepts(c, t, es[n], now) then Some(After(c, t, es[n], now)) else None
  }

  /** A later clock accepts whatever an earlier one did, with the same result. */
  lemma LaterAccepts(c: Crypto, s: Trust, e: Envelope, now: int, later: int)
    requires Accepts(c, s, e, now) && now <= later
    ensures Accepts(c, s, e, later) && After(c, s, e, later) == After(c, s, e, now)
  {
  }

  lemma {:induction false} LaterReplays(c: Crypto, s: Trust, es: seq<Envelope>, now: int, later: int)
    requires Replay(c, s, es, now).Some? && now <= later
    ensures Replay(c, s, es, later) == Replay(c, s, es, now)
    decreases |es|
  {
    if es != [] {
      var n := |es| - 1;
      LaterReplays(c, s, es[..n], now, later);
      LaterAccepts(c, Replay(c, s, es[..n], now).value, es[n], now, later);
    }
  }

  // ----- runs -----

  /** The running store, the file, and the latest time seen. */
  datatype World = World(memory: Trust, file: seq<Envelope>, clock: int)

  datatype Step = Apply(envelope: Envelope, now: int, fault: Fault) | Restart(now: int)

  /** A restart that cannot load the file leaves no store (`None`). */
  ghost function Next(c: Crypto, keys: map<string, Key>, w: World, step: Step): Option<World> {
    match step
    case Apply(e, now, fault) =>
      if !Accepts(c, w.memory, e, now) then Some(w.(clock := now))
      else
        var t := After(c, w.memory, e, now);
        (match fault
         case Fine => Some(World(t, t.envelopes, now))
         case Broken => Some(w.(clock := now))
         case Late => Some(w.(file := t.envelopes, clock := now)))
    case Restart(now) =>
      if |w.file| > MAX_BUNDLES then None
      else match Replay(c, Initial(keys), w.file, now)
        case None => None
        case Some(t) => Some(World(t, w.file, now))
  }

  /** The memory is what its envelopes say; the file holds them, or one more that the memory would
      have accepted too. */
  ghost predicate Inv(c: Crypto, keys: map<string, Key>, w: World) {
    && |w.memory.envelopes| <= MAX_BUNDLES
    && Replay(c, Initial(keys), w.memory.envelopes, w.clock) == Some(w.memory)
    && (w.file == w.memory.envelopes || OneAhead(c, w))
  }

  ghost predicate OneAhead(c: Crypto, w: World) {
    && w.file != [] && w.file[..|w.file| - 1] == w.memory.envelopes
    && Accepts(c, w.memory, w.file[|w.file| - 1], w.clock)
  }

  lemma ReplayMore(c: Crypto, s: Trust, es: seq<Envelope>, e: Envelope, now: int, t: Trust)
    requires Replay(c, s, es, now) == Some(t) && Accepts(c, t, e, now)
    ensures Replay(c, s, es + [e], now) == Some(After(c, t, e, now))
  {
  }

  lemma LaterInv(c: Crypto, keys: map<string, Key>, w: World, now: int)
    requires Inv(c, keys, w) && w.clock <= now
    ensures Inv(c, keys, w.(clock := now))
  {
    LaterReplays(c, Initial(keys), w.memory.envelopes, w.clock, now);
    if OneAhead(c, w) { LaterAccepts(c, w.memory, w.file[|w.file| - 1], w.clock, now); }
  }

  /** While the clock does not go back every step keeps the invariant; in particular every restart
      can load the file. */
  lemma NextInv(c: Crypto, keys: map<string, Key>, w: World, step: Step)
    requires Inv(c, keys, w) && w.clock <= step.now
    ensures var r := Next(c, keys, w, step); r.Some? && Inv(c, keys, r.value) && r.value.clock == step.now
  {
    hide Accepts, After, Replay;
    LaterInv(c, keys, w, step.now);
    match step
    case Apply(e, now, fault) =>
      if Accepts(c, w.memory, e, now) {
        AfterExtends(c, w.memory, e, now);
        ReplayMore(c, Initial(keys), w.memory.envelopes, e, now, w.memory);
      }
    case Restart(now) => ReloadIs(c, keys, w, now);
  }

  /** The result of loading the file. */
  lemma ReloadIs(c: Crypto, keys: map<string, Key>, w: World, now: int)
    requires Inv(c, keys, w) && w.clock <= now
    ensures |w.file| <= MAX_BUNDLES
    ensures w.file == w.memory.envelopes ==> Replay(c, Initial(keys), w.file, now) == Some(w.memory)
    ensures w.file != w.memory.envelopes ==> w.file != []
    ensures w.file != w.memory.envelopes ==>
      var e := w.file[|w.file| - 1];
      Accepts(c, w.memory, e, now) && Replay(c, Initial(keys), w.file, now) == Some(After(c, w.memory, e, now))
      && After(c, w.memory, e, now).envelopes == w.file
  {
    hide Accepts, After, Replay;
    LaterInv(c, keys, w, now);
    if w.file != w.memory.envelopes {
      var e := w.file[|w.file| - 1];
      AfterExtends(c, w.memory, e, now);
      ReplayMore(c, Initial(keys), w.memory.envelopes, e, now, w.memory);
      assert w.memory.envelopes + [e] == w.file;
    }
  }

  /** Reloading rebuilds exactly the state in memory if and only if the file holds exactly the
      envelopes in memory, that is, unless the last write reported a failure after it took effect. */
  lemma ReloadExact(c: Crypto, keys: map<string, Key>, w: World, now: int)
    requires Inv(c, keys, w) && w.clock <= now
    ensures var r := Next(c, keys, w, Restart(now));
      r.Some? && (r.value.memory == w.memory <==> w.file == w.memory.envelopes)
  {
    ReloadIs(c, keys, w, now);
  }

  /** A write that reports a failure leaves the memory alone; if it took effect all the same, the next
      start has the refused bundle. */
  lemma FailedPersist(c: Crypto, keys: map<string, Key>, w: World, e: Envelope, now: int, fault: Fault, later: int)
    requires Inv(c, keys, w) && w.clock <= now <= later && !fault.Fine? && Accepts(c, w.memory, e, now)
    ensures var u := Next(c, keys, w, Apply(e, now, fault)).value;
      && u.memory == w.memory && (fault.Broken? ==> u.file == w.file)
      && (fault.Late? ==>
            var r := Next(c, keys, u, Restart(later)); r.Some? && r.value.memory == After(c, w.memory, e, now) != w.memory)
  {
    NextInv(c, keys, w, Apply(e, now, fault));
    if fault.Late? {
      var u := Next(c, keys, w, Apply(e, now, fault)).value;
      assert u.file[|u.file| - 1] == e;
      ReloadIs(c, keys, u, later);
      LaterAccepts(c, w.memory, e, now, later);
    }
  }

  // ----- what a run keeps -----

  /** `t` is at least as strict as `s`. */
  predicate Stricter(s: Trust, t: Trust) {
    s.generation <= t.generation && s.revokedKeys <= t.revokedKeys && s.revokedVersions <= t.revokedVersions
  }

  lemma AfterStricter(c: Crypto, s: Trust, e: Envelope, now: int)
    requires Accepts(c, s, e, now)
    ensures var t := After(c, s, e, now);
      Stricter(s, t) && s.generation < t.generation && SomeActive(t.keys, t.revokedKeys) && Signed(c, s, e)
  {
  }

  /** Each step changes the state only by a bundle that a trusted, unrevoked key signed just before;
      the generation then strictly increases, revocations only grow, and some key stays active. */
  lemma StepStricter(c: Crypto, keys: map<string, Key>, w: World, step: Step)
    requires Inv(c, keys, w) && w.clock <= step.now && SomeActive(w.memory.keys, w.memory.revokedKeys)
    ensures Next(c, keys, w, step).Some?
    ensures var u := Next(c, keys, w, step).value;
      && Stricter(w.memory, u.memory) && SomeActive(u.memory.keys, u.memory.revokedKeys)
      && (u.memory != w.memory ==>
            && w.memory.generation < u.memory.generation
            && exists e :: Signed(c, w.memory, e) && u.memory.envelopes == w.memory.envelopes + [e])
  {
    hide Accepts, After, Signed, SomeActive, Replay, Inv, Stricter;
    NextInv(c, keys, w, step);
    StricterSelf(w.memory);
    match step
    case Apply(e, now, fault) =>
      if Accepts(c, w.memory, e, now) {
        AfterStricter(c, w.memory, e, now);
        AfterExtends(c, w.memory, e, now);
      }
    case Restart(now) =>
      ReloadIs(c, keys, w, now);
      if w.file != w.memory.envelopes {
        var e := w.file[|w.file| - 1];
        AfterStricter(c, w.memory, e, now);
        AfterExtends(c, w.memory, e, now);
      }
  }

  ghost predicate Forward(steps: seq<Step>, clock: int) {
    && (forall i :: 0 <= i < |steps| ==> clock <= steps[i].now)
    && (forall i, j :: 0 <= i < j < |steps| ==> steps[i].now <= steps[j].now)
  }

  ghost function Run(c: Crypto, keys: map<string, Key>, w: World, steps: seq<Step>): Option<World>
    decreases |steps|
  {
    if steps == [] then Some(w)
    else match Next(c, keys, w, steps[0])
      case None => None
      case Some(u) => Run(c, keys, u, steps[1..])
  }

  /** Over every run with a clock that does not go back, through refused bundles, failed writes and
      restarts: the store always loads, gets only stricter, and keeps an active key. */
  lemma {:induction false} RunStricter(c: Crypto, keys: map<string, Key>, w: World, steps: seq<Step>)
    requires Inv(c, keys, w) && Forward(steps, w.clock) && SomeActive(w.memory.keys, w.memory.revokedKeys)
    ensures var r := Run(c, keys, w, steps);
      && r.Some? && Inv(c, keys, r.value) && Stricter(w.memory, r.value.memory)
      && SomeActive(r.value.memory.keys, r.value.memory.revokedKeys)
    decreases |steps|
  {
    hide Inv, Next, SomeActive, Stricter, Signed;
    if steps == [] {
      StricterSelf(w.memory);
    } else {
      NextInv(c, keys, w, steps[0]);
      StepStricter(c, keys, w, steps[0]);
      var u := Next(c, keys, w, steps[0]).value;
      RunStricter(c, keys, u, steps[1..]);
      StricterOn(w.memory, u.memory, Run(c, keys, u, steps[1..]).value.memory);
    }
  }

  lemma StricterSelf(s: Trust)
    ensures Stricter(s, s)
  {
  }

  lemma StricterOn(s: Trust, t: Trust, u: Trust)
    requires Stricter(s, t) && Stricter(t, u)
    ensures Stricter(s, u)
  {
  }

  lemma StartInv(c: Crypto, keys: map<string, Key>, clock: int)
    requires |keys| > 0
    ensures Inv(c, keys, World(Initial(keys), [], clock)) && SomeActive(keys, {})
  {
  }

  /** What a store answers for a key identifier. */
  function KeyOf(s: Trust, id: string): Option<Key> {
    if id in s.keys && id !in s.revokedKeys then Some(s.keys[id]) else None
  }

  /** Over every run of updates, failing writes and restarts: a key identifier once revoked is never answered
      again, although later bundles may list it, and some key is always answered. */
  lemma RevokedNeverAnswered(c: Crypto, keys: map<string, Key>, w: World, steps: seq<Step>, id: string)
    requires Inv(c, keys, w) && Forward(steps, w.clock) && SomeActive(w.memory.keys, w.memory.revokedKeys)
    ensures var r := Run(c, keys, w, steps);
      && r.Some? && (id in w.memory.revokedKeys ==> KeyOf(r.value.memory, id).None?)
      && exists other :: KeyOf(r.value.memory, other).Some?
  {
    hide Inv, Run, Forward;
    RunStricter(c, keys, w, steps);
    var s := Run(c, keys, w, steps).value.memory;
    var other :| other in s.keys && other !in s.revokedKeys;
    assert KeyOf(s, other).Some?;
  }

  lemma ReplayLatest(c: Crypto, s: Trust, es: seq<Envelope>, now: int, id: string, v: string)
    requires es != [] && Replay(c, s, es, now).Some?
    ensures var t, latest := Replay(c, s, es, now).value, c.decode(es[|es| - 1].bundle);
      && latest.Some?
      && var b := latest.value;
      && KeyOf(t, id) == (if id in b.keys && id !in b.revokedKeys then c.decodeKey(id, b.keys[id]) else None)
      && (v in t.revokedVersions <==> v in b.revokedVersions) && t.generation == b.generation
  {
  }

  /** Over every run the store answers exactly for the keys of its latest bundle that this bundle does not revoke, and
      for none of earlier bundles; exactly the versions of that bundle are revoked. Without a bundle it answers for
      the keys it was made with. */
  lemma AnswersLatest(c: Crypto, keys: map<string, Key>, w: World, steps: seq<Step>, id: string, v: string)
    requires Inv(c, keys, w) && Forward(steps, w.clock) && SomeActive(w.memory.keys, w.memory.revokedKeys)
    ensures Run(c, keys, w, steps).Some?
    ensures var s := Run(c, keys, w, steps).value.memory;
      if s.envelopes == [] then KeyOf(s, id) == Look(keys, id) && v !in s.revokedVersions && s.generation == 0
      else
        var latest := c.decode(s.envelopes[|s.envelopes| - 1].bundle);
        && latest.Some?
        && var b := latest.value;
        && KeyOf(s, id) == (if id in b.keys && id !in b.revokedKeys then c.decodeKey(id, b.keys[id]) else None)
        && (v in s.revokedVersions <==> v in b.revokedVersions) && s.generation == b.generation
  {
    hide Run, Forward, SomeActive, Stricter, Accepts, After, OneAhead;
    RunStricter(c, keys, w, steps);
    var r := Run(c, keys, w, steps).value;
    if r.memory.envelopes != [] { ReplayLatest(c, Initial(keys), r.memory.envelopes, r.clock, id, v); }
  }

  /** When an envelope is accepted, in its own terms: there is room, a key that the store answers for has signed it, and
      its bundle is newer than all before, not from the future, lists one to 32 keys that can be read, at least one of
      them not revoked, takes no revocation back, and names versions that are versions, all without repetition. Then
      and only then an application that can be written changes the store. */
  lemma AcceptedExactly(c: Crypto, keys: map<string, Key>, w: World, e: Envelope, now: int)
    ensures var s := w.memory;
      var signer, bundle := KeyOf(s, e.signer), c.decode(e.bundle);
      Next(c, keys, w, Apply(e, now, Fine)).value.memory != s <==>
        && |s.envelopes| < 32 && e.signer != "" && signer.Some? && c.verify(signer.value, e.bundle, e.signature)
        && bundle.Some?
        && var b := bundle.value;
        && b.generation > s.generation && b.issued <= now + 60 && 0 < |b.keys| <= 32
        && (forall k :: k in b.keys ==> c.decodeKey(k, b.keys[k]).Some?)
        && (exists k :: k in b.keys && k !in b.revokedKeys)
        && (forall k :: k in s.revokedKeys ==> k in b.revokedKeys) && (forall v :: v in s.revokedVersions ==> v in b.revokedVersions)
        && (forall v :: v in b.revokedVersions ==> c.validVersion(v))
        && Proper(b.revokedKeys) && Proper(b.revokedVersions)
  {
    if Accepts(c, w.memory, e, now) {
      AfterExtends(c, w.memory, e, now);
    }
    if c.decode(e.bundle).Some? && KeysDecode(c, c.decode(e.bundle).value.keys) {
      ActiveIs(c, c.decode(e.bundle).value);
    }
  }

  /** No empty value and no repetition. */
  ghost predicate Proper(values: seq<string>) {
    && (forall i :: 0 <= i < |values| ==> values[i] != "")
    && (forall i, j :: 0 <= i < j < |values| ==> values[i] != values[j])
  }

  lemma ActiveIs(c: Crypto, b: Bundle)
    requires KeysDecode(c, b.keys)
    ensures SomeActive(DecodedKeys(c, b.keys), Elements(b.revokedKeys)) <==> exists k :: k in b.keys && k !in b.revokedKeys
  {
    var decoded := DecodedKeys(c, b.keys);
    if k :| k in b.keys && k !in b.revokedKeys { assert k in decoded && k !in Elements(b.revokedKeys); }
  }

  /** A bundle that took effect is never accepted a second time, in no later state of any run. */
  lemma AcceptedOnce(c: Crypto, keys: map<string, Key>, w: World, e: Envelope, now: int, steps: seq<Step>, later: int)
    requires Inv(c, keys, w) && w.clock <= now && Forward(steps, now) && SomeActive(w.memory.keys, w.memory.revokedKeys)
    requires Accepts(c, w.memory, e, now)
    ensures var u := Next(c, keys, w, Apply(e, now, Fine));
      && u.Some? && Run(c, keys, u.value, steps).Some?
      && !Accepts(c, Run(c, keys, u.value, steps).value.memory, e, later)
  {
    StepStricter(c, keys, w, Apply(e, now, Fine));
    NextInv(c, keys, w, Apply(e, now, Fine));
    var u := Next(c, keys, w, Apply(e, now, Fine)).value;
    assert u.memory.generation == c.decode(e.bundle).value.generation && u.clock == now;
    hide Run, Next, Inv, Forward, SomeActive;
    RunStricter(c, keys, u, steps);
  }

  /** In a loaded chain every envelope was signed by a key that its predecessors left trusted and
      unrevoked, and the generations strictly increase. */
  lemma {:induction false} ChainSigned(c: Crypto, s: Trust, es: seq<Envelope>, now: int, i: nat)
    requires Replay(c, s, es, now).Some? && i < |es|
    ensures var a, b := Replay(c, s, es[..i], now), Replay(c, s, es[..i + 1], now);
      && a.Some? && b.Some? && Signed(c, a.value, es[i])
      && a.value.generation < b.value.generation && Stricter(a.value, b.value)
    decreases |es|
  {
    var n := |es| - 1;
    assert es[..|es|] == es;
    if i < n {
      assert es[..n][..i] == es[..i] && es[..n][..i + 1] == es[..i + 1] && es[..n][i] == es[i];
      ChainSigned(c, s, es[..n], now, i);
    } else {
      AfterStricter(c, Replay(c, s, es[..n], now).value, es[n], now);
    }
  }

  lemma AfterExtends(c: Crypto, s: Trust, e: Envelope, now: int)
    requires Accepts(c, s, e, now)
    ensures After(c, s, e, now).envelopes == s.envelopes + [e] && |s.envelopes| < MAX_BUNDLES
  {
  }

  // ----- the store itself -----

  /** The values as a set, if they pass; sorting brings repetitions together. */
  method CumulativeSet(values: seq<string>, previous: set<string>) returns (result: set<string>, ok: bool)
    ensures ok <==> Cumulative(values, previous)
    ensures ok ==> result == Elements(values)
  {
    var sorted := SortStrings(values);
    SameElements(values, sorted);
    result := {};
    for i := 0 to |sorted|
      invariant result == Elements(sorted[..i])
      invariant forall k :: 0 <= k < i ==> sorted[k] != ""
      invariant forall k :: 0 < k < i ==> sorted[k] != sorted[k - 1]
    {
      if sorted[i] == "" || (i > 0 && sorted[i] == sorted[i - 1]) {
        BadValue(values, sorted, i);
        return {}, false;
      }
      assert sorted[..i + 1] == sorted[..i] + [sorted[i]];
      result := result + {sorted[i]};
    }
    assert sorted[..|sorted|] == sorted;
    GoodValues(values, sorted);
    ok := previous <= result;
  }

  lemma SameElements(a: seq<string>, b: seq<string>)
    requires multiset(a) == multiset(b)
    ensures Elements(a) == Elements(b)
  {
    forall x ensures x in a <==> x in b {
      assert x in a <==> x in multiset(a);
      assert x in b <==> x in multiset(b);
    }
  }

  /** Twice in one list is twice in any rearrangement of it. */
  lemma RepeatsCounted(a: seq<string>, i: nat, j: nat)
    requires i < j < |a| && a[i] == a[j]
    ensures multiset(a)[a[i]] >= 2
  {
    assert a == a[..j] + a[j..];
    assert a[..j][i] in a[..j];
    assert a[j..][0] in a[j..];
  }

  lemma CountedRepeats(a: seq<string>, x: string) returns (i: nat, j: nat)
    requires multiset(a)[x] >= 2
    ensures i < j < |a| && a[i] == x == a[j]
  {
    i :| 0 <= i < |a| && a[i] == x;
    assert a == a[..i] + [a[i]] + a[i + 1..];
    if x in a[..i] {
      var k :| 0 <= k < i && a[..i][k] == x;
      i, j := k, i;
    } else {
      assert multiset(a[..i])[x] == 0;
      var k :| 0 <= k < |a[i + 1..]| && a[i + 1..][k] == x;
      j := i + 1 + k;
    }
  }

  lemma BadValue(values: seq<string>, sorted: seq<string>, i: nat)
    requires multiset(values) == multiset(sorted) && i < |sorted|
    requires sorted[i] == "" || (i > 0 && sorted[i] == sorted[i - 1])
    ensures !((forall k :: 0 <= k < |values| ==> values[k] != "") && (forall k, j :: 0 <= k < j < |values| ==> values[k] != values[j]))
  {
    var x := sorted[i];
    assert x in multiset(sorted);
    assert x in values;
    if x != "" {
      RepeatsCounted(sorted, i - 1, i);
      var k, j := CountedRepeats(values, x);
    }
  }

  lemma GoodValues(values: seq<string>, sorted: seq<string>)
    requires multiset(values) == multiset(sorted) && Ascending(sorted)
    requires (forall k :: 0 <= k < |sorted| ==> sorted[k] != "") && (forall k :: 0 < k < |sorted| ==> sorted[k] != sorted[k - 1])
    ensures (forall k :: 0 <= k < |values| ==> values[k] != "") && (forall k, j :: 0 <= k < j < |values| ==> values[k] != values[j])
  {
    forall k | 0 <= k < |values| ensures values[k] != "" {
      assert values[k] in multiset(values);
      assert values[k] in sorted;
    }
    AscendingIncreases(sorted);
    forall a, b | 0 <= a < b < |sorted| ensures sorted[a] != sorted[b] { LessTotal(sorted[a], sorted[b]); }
    forall k, j | 0 <= k < j < |values| ensures values[k] != values[j] {
      if values[k] == values[j] {
        RepeatsCounted(values, k, j);
        var a, b := CountedRepeats(sorted, values[k]);
      }
    }
  }

  /** Sorted without equal neighbours is strictly sorted. */
  lemma AscendingIncreases(s: seq<string>)
    requires Ascending(s) && forall k :: 0 < k < |s| ==> s[k] != s[k - 1]
    ensures Increasing(s)
  {
    forall i, j | 0 <= i < j < |s| ensures Less(s[i], s[j]) {
      LessTotal(s[i], s[i + 1]);
      if j > i + 1 {
        assert !Less(s[j], s[i + 1]) && !Less(s[j], s[i]);
        LessTotal(s[i + 1], s[j]);
        if s[i + 1] != s[j] { LessTransitive(s[i], s[i + 1], s[j]); }
      }
    }
  }

  class TrustStore {
    const crypto: Crypto
    var keys: map<string, Key>
    var revokedKeys: set<string>
    var revokedVersions: set<string>
    var generation: nat
    var envelopes: seq<Envelope>
    var file: seq<Envelope>

    ghost function State(): Trust
      reads this
    {
      Trust(keys, revokedKeys, revokedVersions, generation, envelopes)
    }

    constructor (crypto: Crypto, initial: map<string, Key>, file: seq<Envelope>)
      ensures State() == Initial(initial) && this.crypto == crypto && this.file == file
    {
      this.crypto, this.file := crypto, file;
      keys, revokedKeys, revokedVersions, generation, envelopes := initial, {}, {}, 0, [];
    }

    /** `newTrustStore`: applies what the file holds, in order. */
    method Load(now: int, ghost initial: map<string, Key>) returns (ok: bool)
      requires State() == Initial(initial)
      modifies this
      ensures file == old(file)
      ensures ok <==> |file| <= MAX_BUNDLES && Replay(crypto, Initial(initial), file, now).Some?
      ensures ok ==> Replay(crypto, Initial(initial), file, now) == Some(State())
    {
      if |file| > MAX_BUNDLES {
        return false;
      }
      for i := 0 to |file|
        invariant file == old(file) && Replay(crypto, Initial(initial), file[..i], now) == Some(State())
      {
        hide Replay;
        assert file[..i + 1][..i] == file[..i];
        ReplayStep(crypto, Initial(initial), file[..i + 1], now);
        ReplayPrefix(crypto, Initial(initial), file, now, i + 1);
        var applied := ApplyLocked(file[i], now, None);
        if !applied {
          return false;
        }
      }
      assert file[..|file|] == file;
      return true;
    }

    /** What a bundle would make of the store, if it is admissible. */
    method CheckBundle(bundle: Bundle, now: int) returns (u: Option<Update>)
      ensures u.Some? <==> Admissible(crypto, State(), bundle, now)
      ensures u.Some? ==> u.value == UpdateOf(crypto, bundle)
    {
      hide Cumulative, KeysDecode, DecodedKeys, SomeActive, Elements;
      if bundle.generation <= generation || bundle.issued > now + CLOCK_SKEW || |bundle.keys| == 0 || |bundle.keys| > MAX_KEYS {
        return None;
      }
      var newKeys, decoded := DecodeKeys(crypto, bundle.keys);
      if !decoded {
        return None;
      }
      var newRevokedKeys, keysOk := CumulativeSet(bundle.revokedKeys, revokedKeys);
      if !keysOk {
        return None;
      }
      var newRevokedVersions, versionsOk := CumulativeSet(bundle.revokedVersions, revokedVersions);
      if !versionsOk {
        return None;
      }
      var valid := AllValid(crypto, bundle.revokedVersions);
      if !valid {
        return None;
      }
      var active := AnyActive(newKeys, newRevokedKeys);
      if !active {
        return None;
      }
      return Some(Update(newKeys, newRevokedKeys, newRevokedVersions, bundle.generation));
    }

    /** `persist` is the fault of the write, if there is one. */
    method ApplyLocked(envelope: Envelope, now: int, persist: Option<Fault>) returns (ok: bool)
      modifies this
      ensures ok <==> Accepts(crypto, old(State()), envelope, now) && (persist.None? || persist.value.Fine?)
      ensures ok ==> State() == After(crypto, old(State()), envelope, now)
      ensures !ok ==> State() == old(State())
      ensures file == if Accepts(crypto, old(State()), envelope, now) && persist.Some? && !persist.value.Broken?
                      then old(envelopes) + [envelope] else old(file)
    {
      hide Admissible, DecodedKeys, Elements;
      if |envelopes| >= MAX_BUNDLES || envelope.signer == "" || envelope.signer in revokedKeys || envelope.signer !in keys {
        return false;
      }
      if !crypto.verify(keys[envelope.signer], envelope.bundle, envelope.signature) || crypto.decode(envelope.bundle).None? {
        return false;
      }
      var update := CheckBundle(crypto.decode(envelope.bundle).value, now);
      if update.None? {
        return false;
      }
      ok := Install(update.value, envelope, persist);
    }

    /** Takes over the new values and the envelope, and takes them back when writing them fails. */
    method Install(u: Update, envelope: Envelope, persist: Option<Fault>) returns (ok: bool)
      modifies this
      ensures ok <==> persist.None? || persist.value.Fine?
      ensures State() == if ok then Trust(u.keys, u.revokedKeys, u.revokedVersions, u.generation, old(envelopes) + [envelope])
                         else old(State())
      ensures file == if persist.Some? && !persist.value.Broken? then old(envelopes) + [envelope] else old(file)
    {
      var oldKeys, oldRevokedKeys, oldRevokedVersions, oldGeneration := keys, revokedKeys, revokedVersions, generation;
      keys, revokedKeys, revokedVersions, generation := u.keys, u.revokedKeys, u.revokedVersions, u.generation;
      envelopes := envelopes + [envelope];
      if persist.Some? {
        if !persist.value.Broken? {
          file := envelopes;
        }
        if !persist.value.Fine? {
          keys, revokedKeys, revokedVersions, generation := oldKeys, oldRevokedKeys, oldRevokedVersions, oldGeneration;
          envelopes := envelopes[..|envelopes| - 1];
          return false;
        }
      }
      return true;
    }

    /** `Lookup`: the key that signatures under `id` are checked against. */
    method Lookup(id: string) returns (key: Option<Key>)
      ensures key == KeyOf(State(), id)
    {
      if id !in keys || id in revokedKeys {
        return None;
      }
      return Some(keys[id]);
    }
  }

  lemma ReplayStep(c: Crypto, s: Trust, es: seq<Envelope>, now: int)
    requires es != []
    ensures var n := |es| - 1; var before := Replay(c, s, es[..n], now);
      Replay(c, s, es, now) == if before.Some? && Accepts(c, before.value, es[n], now)
                               then Some(After(c, before.value, es[n], now)) else None
  {
  }

  /** A chain loads only if all its beginnings do. */
  lemma {:induction false} ReplayPrefix(c: Crypto, s: Trust, es: seq<Envelope>, now: int, n: nat)
    requires n <= |es|
    ensures Replay(c, s, es, now).Some? ==> Replay(c, s, es[..n], now).Some?
    decreases |es|
  {
    if n < |es| {
      assert es[..|es| - 1][..n] == es[..n];
      ReplayPrefix(c, s, es[..|es| - 1], now, n);
    } else {
      assert es[..n] == es;
    }
  }

  method DecodeKeys(c: Crypto, encoded: map<string, string>) returns (keys: map<string, Key>, ok: bool)
    ensures ok <==> KeysDecode(c, encoded)
    ensures ok ==> keys == DecodedKeys(c, encoded)
  {
    keys := map[];
    var todo := encoded.Keys;
    while todo != {}
      invariant todo <= encoded.Keys && keys.Keys == encoded.Keys - todo
      invariant forall k :: k in keys ==> c.decodeKey(k, encoded[k]) == Some(keys[k])
      decreases |todo|
    {
      var k :| k in todo;
      var key := c.decodeKey(k, encoded[k]);
      if key.None? {
        return map[], false;
      }
      keys := keys[k := key.value];
      todo := todo - {k};
    }
    ok := true;
  }

  method AllValid(c: Crypto, versions: seq<string>) returns (ok: bool)
    ensures ok <==> forall v :: v in versions ==> c.validVersion(v)
  {
    for i := 0 to |versions|
      invariant forall k :: 0 <= k < i ==> c.validVersion(versions[k])
    {
      if !c.validVersion(versions[i]) {
        return false;
      }
    }
    return true;
  }

  method AnyActive(keys: map<string, Key>, revoked: set<string>) returns (active: bool)
    ensures active <==> SomeActive(keys, revoked)
  {
    var todo := keys.Keys;
    while todo != {}
      invariant todo <= keys.Keys && forall k :: k in keys && k !in todo ==> k in revoked
      decreases |todo|
    {
      var k :| k in todo;
      if k !in revoked {
        return true;
      }
      todo := todo - {k};
    }
    return false;
  }
}
