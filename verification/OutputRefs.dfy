/** Reference counts along the steps of a session: whatever is released was held, and whatever is
    still held stays readable. Live references are always split as ring, history, readers, phase. */
module OutputRefs {
  import opened Basics
  import opened Events
  import opened OutputHistory
  import opened OutputFanout
  import opened OutputRing
  import opened OutputSession

  ghost predicate Among(x: seq<Event>, a: seq<Event>, b: seq<Event>, c: seq<Event>, d: seq<Event>) {
    forall i :: 0 <= i < |x| ==> x[i] in a || x[i] in b || x[i] in c || x[i] in d
  }

  lemma LiveCount(a: seq<Event>, b: seq<Event>, c: seq<Event>, d: seq<Event>, o: Owner)
    ensures Count(Live(a, b, c, d), o) == Count(a, o) + Count(b, o) + Count(c, o) + Count(d, o)
  {
    CountConcat(c, d, o);
    CountConcat(b, c + d, o);
    CountConcat(a, b + (c + d), o);
  }

  lemma LiveMembers(x: seq<Event>, a: seq<Event>, b: seq<Event>, c: seq<Event>, d: seq<Event>)
    requires Among(x, a, b, c, d)
    ensures forall i :: 0 <= i < |x| ==> x[i] in Live(a, b, c, d)
  {
  }

  /** The parts after a release. */
  lemma ReleaseParts(p: Pool, a: seq<Event>, b: seq<Event>, c: seq<Event>, d: seq<Event>, gone: seq<Event>,
                     a': seq<Event>, b': seq<Event>, c': seq<Event>, d': seq<Event>)
    requires SafeRefs(p, Live(a, b, c, d))
    requires forall o :: Count(a, o) + Count(b, o) + Count(c, o) + Count(d, o)
                         == Count(gone, o) + Count(a', o) + Count(b', o) + Count(c', o) + Count(d', o)
    requires Among(gone, a, b, c, d) && Among(a', a, b, c, d) && Among(b', a, b, c, d)
    requires Among(c', a, b, c, d) && Among(d', a, b, c, d)
    ensures AllHeld(p, gone) && SafeRefs(ReleaseAll(p, gone), Live(a', b', c', d'))
  {
    var live, rest := Live(a, b, c, d), Live(a', b', c', d');
    forall o ensures Count(live, o) == Count(gone + rest, o) {
      LiveCount(a, b, c, d, o);
      LiveCount(a', b', c', d', o);
      CountConcat(gone, rest, o);
    }
    LiveMembers(gone, a, b, c, d);
    LiveMembers(a', a, b, c, d);
    LiveMembers(b', a, b, c, d);
    LiveMembers(c', a, b, c, d);
    LiveMembers(d', a, b, c, d);
    JoinMembers(gone, a', b', c', d', live);
    assert SameRefs(live, gone + rest);
    hide *;
    ReleaseAllSafe(p, live, gone, rest);
  }

  lemma JoinMembers(gone: seq<Event>, a: seq<Event>, b: seq<Event>, c: seq<Event>, d: seq<Event>, live: seq<Event>)
    requires forall i :: 0 <= i < |gone| ==> gone[i] in live
    requires forall i :: 0 <= i < |a| ==> a[i] in live
    requires forall i :: 0 <= i < |b| ==> b[i] in live
    requires forall i :: 0 <= i < |c| ==> c[i] in live
    requires forall i :: 0 <= i < |d| ==> d[i] in live
    ensures forall i :: 0 <= i < |gone + Live(a, b, c, d)| ==> (gone + Live(a, b, c, d))[i] in live
  {
  }

  /** Retaining `more`, on behalf of a reader or of the running operation. */
  lemma RetainParts(p: Pool, a: seq<Event>, b: seq<Event>, c: seq<Event>, d: seq<Event>, more: seq<Event>,
                    c': seq<Event>, d': seq<Event>)
    requires SafeRefs(p, Live(a, b, c, d)) && AllReadable(p, more)
    requires (c' == c + more && d' == d) || (c' == c && d' == d + more)
    ensures EachHeld(p, more) && SafeRefs(RetainAll(p, more), Live(a, b, c', d'))
  {
    var live, after := Live(a, b, c, d), Live(a, b, c', d');
    RetainAllSafe(p, live, more);
    forall o ensures Count(live + more, o) == Count(after, o) {
      LiveCount(a, b, c, d, o);
      LiveCount(a, b, c', d', o);
      CountConcat(live, more, o);
      CountConcat(c, more, o);
      CountConcat(d, more, o);
    }
    forall i | 0 <= i < |after| ensures after[i] in live + more {
      assert after[i] in a || after[i] in b || after[i] in c || after[i] in d || after[i] in more;
    }
    hide *;
    SafePermutation(RetainAll(p, more), live + more, after);
  }

  // ----- the ring -----

  /** Compaction releases exactly the elements it drops. */
  lemma TrimSafe(p: Pool, f: Fan, b: seq<Event>, c: seq<Event>, d: seq<Event>)
    requires SafeRefs(p, Live(f.ring, b, c, d))
    ensures SafeRefs(TrimPool(p, f), Live(Trim(f.attachments, f.ring), b, c, d))
  {
    var gone, left := Trimmed(f.attachments, f.ring), Trim(f.attachments, f.ring);
    TrimSplits(f.attachments, f.ring);
    hide Trim, Trimmed;
    assert Live(f.ring, b, c, d) == gone + Live(left, b, c, d);
    ReleaseAllSafe(p, Live(f.ring, b, c, d), gone, Live(left, b, c, d));
  }

  /** Insertion adds one reference for the new element and drops those of the elements it replaces. */
  lemma InsertSafe(p: Pool, ring: seq<Event>, b: seq<Event>, c: seq<Event>, d: seq<Event>, e: Event, t: Tape)
    requires SafeRefs(p, Live(ring, b, c, d)) && RingOk(ring, t) && Piece(e, t) && e in d
    ensures SafeRefs(InsertPool(p, ring, e), Live(Insert(ring, e), b, c, d))
  {
    InsertIsMerge(ring, e, t);
    Parts(ring, e);
    var x, y, gone := Earlier(ring, e), Later(ring, e), Replaced(ring, e);
    if Keeps(ring, e) {
      forall o ensures Count(ring, o) == Count(gone, o) + Count(x + y, o) {
        CountConcat(x + gone, y, o);
        CountConcat(x, gone, o);
        CountConcat(x, y, o);
      }
      assert Insert(ring, e) == x + [e] + y;
      assert ring == x + gone + y;
      InsertParts(p, x, y, gone, b, c, d, e);
    }
  }

  lemma InsertParts(p: Pool, x: seq<Event>, y: seq<Event>, gone: seq<Event>, b: seq<Event>, c: seq<Event>, d: seq<Event>, e: Event)
    requires SafeRefs(p, Live(x + gone + y, b, c, d)) && e in d
    requires forall o :: Count(x + gone + y, o) == Count(gone, o) + Count(x + y, o)
    ensures SafeRefs(Retain(ReleaseAll(p, gone), e), Live(x + [e] + y, b, c, d))
  {
    var ring := x + gone + y;
    ReleaseParts(p, ring, b, c, d, gone, x + y, b, c, d);
    var q, live, after := ReleaseAll(p, gone), Live(x + y, b, c, d), Live(x + [e] + y, b, c, d);
    var i :| 0 <= i < |d| && d[i] == e;
    assert live[|x + y| + |b| + |c| + i] == e;
    RetainSafe(q, live, e);
    forall o ensures Count(live + [e], o) == Count(after, o) {
      LiveCount(x + y, b, c, d, o);
      LiveCount(x + [e] + y, b, c, d, o);
      CountConcat(live, [e], o);
      CountConcat(x, y, o);
      CountConcat(x + [e], y, o);
      CountConcat(x, [e], o);
    }
    forall k | 0 <= k < |after| ensures after[k] in live + [e] {
      assert after[k] in x || after[k] in y || after[k] == e || after[k] in b || after[k] in c || after[k] in d;
    }
    hide *;
    SafePermutation(Retain(q, e), live + [e], after);
  }

  // ----- the history -----

  /** A new event with two references counts twice: in the window and with its producer. */
  lemma TakenTwice(p: Pool, ring: seq<Event>, events: seq<Event>, held: seq<Event>, e: Event)
    requires SafeRefs(p, Live(ring, events, held, [])) && e.owner.Some? && e.owner.value !in p.owners
    requires e.end == e.start + |e.data|
    ensures SafeRefs(TakeTwo(p, e), Live(ring, events + [e], held, [e]))
  {
    var live, more := Live(ring, events, held, []), Live(ring, events + [e], held, [e]);
    var one := Events.Take(p, e.owner.value, e.start, e.data, 1);
    TakeSafe(p, live, e);
    RetainSafe(one, live + [e], e);
    assert Retain(one, e) == TakeTwo(p, e);
    hide SafeRefs, Retain, Events.Take;
    forall o ensures Count(live + [e] + [e], o) == Count(more, o) {
      LiveCount(ring, events, held, [], o);
      LiveCount(ring, events + [e], held, [e], o);
      CountConcat(live + [e], [e], o);
      CountConcat(live, [e], o);
      CountConcat(events, [e], o);
    }
    forall k | 0 <= k < |more| ensures more[k] in live + [e] + [e] {
      assert more[k] in ring || more[k] in events || more[k] in held || more[k] == e;
    }
    SafePermutation(TakeTwo(p, e), live + [e] + [e], more);
  }

  /** A captured chunk gets the history's and the producer's reference; compaction drops the rest. */
  lemma CaptureSafe(p: Pool, ring: seq<Event>, w: Window, held: seq<Event>, e: Event)
    requires SafeRefs(p, Live(ring, w.events, held, [])) && e.owner.Some? && e.owner.value !in p.owners
    requires e.end == e.start + |e.data|
    ensures var v := Pushed(w, e);
      SafeRefs(ReleaseAll(TakeTwo(p, e), Dropped(v)), Live(ring, Compact(v).events, held, [e]))
  {
    var v, two := Pushed(w, e), TakeTwo(p, e);
    TakenTwice(p, ring, w.events, held, e);
    CompactSplits(v);
    forall o ensures Count(v.events, o) == Count(Dropped(v), o) + Count(Compact(v).events, o) {
      CountConcat(Dropped(v), Compact(v).events, o);
    }
    hide Compact, Dropped, ReleaseAll, SafeRefs, Events.Take, Retain;
    ReleaseParts(two, ring, v.events, held, [e], Dropped(v), ring, Compact(v).events, held, [e]);
  }
}
