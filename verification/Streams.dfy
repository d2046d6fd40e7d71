/** Records on byte streams (internal/nativeproto/nativeproto.go, internal/protocol/binary.go). */
module Streams {
  import opened Basics
  import opened BigEndian
  import opened TerminalFrames

  // ----- writing -----

  /** One call of `Write`: how many bytes it took, and whether it reported an error. */
  datatype Accepted = Accepted(count: nat, failed: bool)

  /** A writer that may take only part of what it is given; its answers are arbitrary. */
  class Sink {
    var written: seq<byte>
    const accept: (seq<byte>, seq<byte>) -> Accepted

    constructor (accept: (seq<byte>, seq<byte>) -> Accepted)
      ensures written == [] && this.accept == accept
    {
      this.written, this.accept := [], accept;
    }

    method Write(data: seq<byte>) returns (n: nat, failed: bool)
      modifies this
      ensures n <= |data| && written == old(written) + data[..n]
    {
      var a := accept(written, data);
      n, failed := if a.count <= |data| then a.count else |data|, a.failed;
      written := written + data[..n];
    }
  }

  /** `writeFull`: everything was written, or an error is reported and only a beginning was. */
  method WriteFull(w: Sink, data: seq<byte>) returns (ok: bool)
    modifies w
    ensures ok ==> w.written == old(w.written) + data
    ensures !ok ==> exists n :: 0 <= n <= |data| && w.written == old(w.written) + data[..n]
  {
    var rest := data;
    ghost var done := 0;
    while |rest| != 0
      invariant 0 <= done <= |data| && rest == data[done..] && w.written == old(w.written) + data[..done]
      decreases |rest|
    {
      var n, failed := w.Write(rest);
      assert data[..done] + rest[..n] == data[..done + n];
      if failed || n == 0 {
        assert w.written == old(w.written) + data[..done + n];
        return false;
      }
      rest := rest[n..];
      done := done + n;
    }
    assert data[..done] == data;
    return true;
  }

  // ----- reading -----

  datatype Read<T> = Short | Bad | Got(value: T, rest: seq<byte>)

  // ----- prefaces -----

  const MAGIC: seq<byte> := [80, 66, 84, 49]
  const VERSION: byte := 1
  const CONTROL: byte := 1
  const MAX_TOKEN: nat := 0x4000
  const BINDING_SIZE: nat := 32

  datatype Preface = Preface(role: byte, id: seq<byte>, binding: seq<byte>, token: seq<byte>)

  predicate ZeroId(id: seq<byte>) { forall i :: 0 <= i < |id| ==> id[i] == 0 }

  predicate ValidLengths(role: byte, binding: nat, token: nat) {
    || (role == CONTROL && binding == 0 && token > 0)
    || ((role == 2 || role == 3) && binding == BINDING_SIZE && token == 0)
  }

  predicate PrefaceOk(p: Preface) {
    |p.id| == 16 && !ZeroId(p.id) && |p.token| <= MAX_TOKEN && ValidLengths(p.role, |p.binding|, |p.token|)
  }

  function PrefaceBytes(p: Preface): seq<byte> {
    PrefaceHeader(p) + p.binding + p.token
  }

  function PrefaceHeader(p: Preface): seq<byte> {
    MAGIC + [VERSION, p.role] + p.id + Put(|p.binding|, 2) + Put(|p.token|, 2)
  }

  function ReadPreface(s: seq<byte>): Read<Preface> {
    if |s| < 26 then Short
    else if s[..4] != MAGIC || s[4] != VERSION then Bad
    else
      var role, id, bindingLen, tokenLen := s[5], s[6..22], U16(s[22..24]), U16(s[24..26]);
      if ZeroId(id) || tokenLen > MAX_TOKEN || !ValidLengths(role, bindingLen, tokenLen) then Bad
      else if |s| < 26 + bindingLen + tokenLen then Short
      else Got(Preface(role, id, s[26..26 + bindingLen], s[26 + bindingLen..26 + bindingLen + tokenLen]), s[26 + bindingLen + tokenLen..])
  }

  lemma HeaderReadsBack(p: Preface, rest: seq<byte>)
    requires PrefaceOk(p)
    ensures var s := PrefaceHeader(p) + rest;
      && |s| == 26 + |rest| && s[..4] == MAGIC && s[4] == VERSION && s[5] == p.role && s[6..22] == p.id
      && U16(s[22..24]) == |p.binding| && U16(s[24..26]) == |p.token| && s[26..] == rest
  {
    PowerValues();
    GetPut(|p.binding|, 2);
    GetPut(|p.token|, 2);
    hide Put, Get, Power;
    var s, binding, token := PrefaceHeader(p) + rest, Put(|p.binding|, 2), Put(|p.token|, 2);
    Parts4(MAGIC, [VERSION, p.role], p.id, binding, token + rest);
    Regroup(MAGIC + [VERSION, p.role] + p.id + binding, token, rest);
    TailIs(s, 24, token, rest);
    var pair := [VERSION, p.role];
    assert s[4..6] == pair;
    assert s[4] == s[4..6][0] == pair[0];
    assert s[5] == s[4..6][1] == pair[1];
  }

  lemma HeaderRebuilt(s: seq<byte>, p: Preface)
    requires |s| >= 26 && s[..4] == MAGIC && s[4] == VERSION && p.role == s[5] && p.id == s[6..22]
    requires |p.binding| == U16(s[22..24]) && |p.token| == U16(s[24..26])
    ensures s[..26] == PrefaceHeader(p)
  {
    PutGet(s[22..24]);
    PutGet(s[24..26]);
    hide Put, Get;
    var h := s[..26];
    assert h[..4] == s[..4];
    assert h[4..6] == [s[4], s[5]];
    assert h[6..22] == s[6..22];
    assert h[22..24] == s[22..24];
    assert h[24..] == s[24..26];
    Whole4(h, 4, 6, 22, 24);
  }

  lemma PrefaceReads(p: Preface, rest: seq<byte>)
    requires PrefaceOk(p)
    ensures ReadPreface(PrefaceBytes(p) + rest) == Got(p, rest)
  {
    var h, body := PrefaceHeader(p), p.binding + (p.token + rest);
    HeaderReadsBack(p, body);
    hide PrefaceHeader, U16, ZeroId;
    Regroup(h + p.binding, p.token, rest);
    Regroup(h, p.binding, p.token + rest);
    var s := h + body;
    TailIs(s, 26, p.binding, p.token + rest);
    TailIs(s, 26 + |p.binding|, p.token, rest);
  }

  lemma PrefaceRebuilt(s: seq<byte>)
    requires ReadPreface(s).Got?
    ensures var g := ReadPreface(s); PrefaceOk(g.value) && s == PrefaceBytes(g.value) + g.rest
  {
    var p := ReadPreface(s).value;
    HeaderRebuilt(s, p);
    Whole3(s, 26, 26 + |p.binding|, 26 + |p.binding| + |p.token|);
    hide PrefaceHeader, U16, ZeroId;
  }

  /** Reading a stream gives a preface exactly when the stream begins with that preface as written. */
  lemma PrefaceRoundTrip(p: Preface, s: seq<byte>, rest: seq<byte>)
    ensures ReadPreface(s) == Got(p, rest) <==> PrefaceOk(p) && s == PrefaceBytes(p) + rest
  {
    hide ReadPreface, PrefaceBytes, PrefaceOk;
    if PrefaceOk(p) && s == PrefaceBytes(p) + rest { PrefaceReads(p, rest); }
    if ReadPreface(s) == Got(p, rest) { PrefaceRebuilt(s); }
  }

  // ----- records -----

  const MAX_RECORD: nat := 0x10_0000
  const STRUCTURED: byte := 1
  const BINARY: byte := 2

  datatype Record = Record(kind: byte, payload: seq<byte>)

  /** Untyped streams carry binary records only. */
  predicate RecordOk(r: Record, typed: bool) {
    0 < |r.payload| <= MAX_RECORD && (r.kind == BINARY || (typed && r.kind == STRUCTURED))
  }

  /** What `WriteRecord` accepts: on an untyped stream the kind is not looked at. */
  predicate Writable(r: Record, typed: bool) {
    0 < |r.payload| <= MAX_RECORD && (typed ==> r.kind == STRUCTURED || r.kind == BINARY)
  }

  /** An untyped stream does not carry the kind. */
  function AsRead(r: Record, typed: bool): Record { if typed then r else r.(kind := BINARY) }

  function AllAsRead(rs: seq<Record>, typed: bool): (all: seq<Record>)
    ensures |all| == |rs| && forall i :: 0 <= i < |rs| ==> all[i] == AsRead(rs[i], typed)
  {
    seq(|rs|, i requires 0 <= i < |rs| => AsRead(rs[i], typed))
  }

  function RecordBytes(r: Record, typed: bool): seq<byte> {
    (if typed then [r.kind] else []) + Put(|r.payload|, 4) + r.payload
  }

  function ReadRecord(s: seq<byte>, typed: bool): Read<Record> {
    var header := if typed then 5 else 4;
    if |s| < header then Short
    else
      var kind := if typed then s[0] else BINARY;
      var length := U32(s[header - 4..header]);
      if kind != STRUCTURED && kind != BINARY then Bad
      else if length == 0 || length > MAX_RECORD then Bad
      else if |s| < header + length then Short
      else Got(Record(kind, s[header..header + length]), s[header + length..])
  }

  lemma RecordReads(r: Record, typed: bool, rest: seq<byte>)
    requires RecordOk(r, typed)
    ensures ReadRecord(RecordBytes(r, typed) + rest, typed) == Got(r, rest)
  {
    PowerValues();
    GetPut(|r.payload|, 4);
    Parts3(if typed then [r.kind] else [], Put(|r.payload|, 4), r.payload, rest);
    hide Put, Get, Power;
  }

  lemma RecordRoundTrip(r: Record, typed: bool, s: seq<byte>, rest: seq<byte>)
    ensures ReadRecord(s, typed) == Got(r, rest) <==> RecordOk(r, typed) && s == RecordBytes(r, typed) + rest
  {
    if RecordOk(r, typed) && s == RecordBytes(r, typed) + rest { RecordReads(r, typed, rest); }
    if ReadRecord(s, typed) == Got(r, rest) { RecordRebuilt(s, typed); }
  }

  lemma RecordRebuilt(s: seq<byte>, typed: bool)
    requires ReadRecord(s, typed).Got?
    ensures var g := ReadRecord(s, typed); RecordOk(g.value, typed) && s == RecordBytes(g.value, typed) + g.rest
  {
    var h, r := if typed then 5 else 4, ReadRecord(s, typed).value;
    PutGet(s[h - 4..h]);
    hide Put, Get;
    assert s[..h - 4] == if typed then [s[0]] else [];
    Whole3(s, h - 4, h, h + |r.payload|);
  }

  function AllBytes(rs: seq<Record>, typed: bool): seq<byte> {
    if rs == [] then [] else RecordBytes(rs[0], typed) + AllBytes(rs[1..], typed)
  }

  /** Reads records to the end of the stream. */
  function ReadAll(s: seq<byte>, typed: bool): Option<seq<Record>>
    decreases |s|
  {
    if s == [] then Some([])
    else match ReadRecord(s, typed)
      case Got(r, rest) => if |rest| >= |s| then None
        else (match ReadAll(rest, typed) case None => None case Some(rs) => Some([r] + rs))
      case _ => None
  }

  /** A concatenation of records reads back as the same sequence, and nothing else does. */
  lemma {:induction false} RecordsRoundTrip(rs: seq<Record>, typed: bool, s: seq<byte>)
    ensures ReadAll(s, typed) == Some(rs) <==> (forall i :: 0 <= i < |rs| ==> RecordOk(rs[i], typed)) && s == AllBytes(rs, typed)
    decreases |rs|
  {
    hide RecordBytes, ReadRecord, RecordOk;
    if (forall i :: 0 <= i < |rs| ==> RecordOk(rs[i], typed)) && s == AllBytes(rs, typed) && rs != [] {
      var rest := AllBytes(rs[1..], typed);
      RecordRoundTrip(rs[0], typed, s, rest);
      RecordsRoundTrip(rs[1..], typed, rest);
      RecordGrows(rs[0], typed);
      assert [rs[0]] + rs[1..] == rs;
    }
    if ReadAll(s, typed) == Some(rs) && s != [] {
      var first := ReadRecord(s, typed);
      RecordRoundTrip(first.value, typed, s, first.rest);
      var more := ReadAll(first.rest, typed).value;
      assert rs == [first.value] + more && rs[1..] == more;
      RecordsRoundTrip(rs[1..], typed, first.rest);
      forall i | 0 <= i < |rs| ensures RecordOk(rs[i], typed) { if i > 0 { assert rs[i] == rs[1..][i - 1]; } }
    }
  }

  lemma RecordGrows(r: Record, typed: bool)
    ensures |RecordBytes(r, typed)| > 0
  {
  }

  /** `WriteRecord` for each record in turn, through a writer that takes what it likes: if all of them
      succeed, the stream reads back as exactly these records. */
  method WriteRecords(w: Sink, rs: seq<Record>, typed: bool) returns (ok: bool)
    requires w.written == []
    modifies w
    ensures ok ==> (forall i :: 0 <= i < |rs| ==> Writable(rs[i], typed)) && ReadAll(w.written, typed) == Some(AllAsRead(rs, typed))
  {
    ghost var all := AllAsRead(rs, typed);
    for i := 0 to |rs|
      invariant w.written == AllBytes(all[..i], typed) && forall k :: 0 <= k < i ==> Writable(rs[k], typed)
    {
      if !Writable(rs[i], typed) {
        return false;
      }
      AllBytesAppend(all[..i], all[i], typed);
      assert all[..i + 1] == all[..i] + [all[i]];
      var wrote := WriteFull(w, RecordBytes(rs[i], typed));
      if !wrote {
        return false;
      }
    }
    assert all[..|rs|] == all;
    RecordsRoundTrip(all, typed, w.written);
    return true;
  }

  lemma {:induction false} AllBytesAppend(rs: seq<Record>, r: Record, typed: bool)
    ensures AllBytes(rs + [r], typed) == AllBytes(rs, typed) + RecordBytes(r, typed)
    decreases |rs|
  {
    hide RecordBytes;
    if rs == [] {
      assert [r][1..] == [] && [] + [r] == [r];
    } else {
      AllBytesAppend(rs[1..], r, typed);
      assert (rs + [r])[1..] == rs[1..] + [r];
    }
  }

  // ----- binary frames -----

  const BINARY_HEADER: nat := 9

  datatype BinaryFrame = BinaryFrame(channel: byte, start: u64, data: seq<byte>)

  /** `EndSequence` does not overflow. */
  function EndSequence(f: BinaryFrame): Option<u64> {
    if |f.data| > 0xFFFF_FFFF_FFFF_FFFF - f.start then None else Some(f.start + |f.data|)
  }

  predicate BinaryChannel(c: byte) { c == 1 || c == 2 || c == 3 }

  predicate BinaryOk(f: BinaryFrame) {
    BinaryChannel(f.channel) && |f.data| <= MAX_BINARY_FRAME - BINARY_HEADER && EndSequence(f).Some?
  }

  function BinaryHeader(f: BinaryFrame): seq<byte>
    requires |f.data| <= MAX_BINARY_FRAME
  {
    Put(BINARY_HEADER + |f.data|, 4) + [f.channel] + Put(f.start, 8)
  }

  function ReadBinaryFrame(s: seq<byte>): Read<BinaryFrame> {
    if |s| < 4 then Short
    else
      var n := U32(s[..4]);
      if n < BINARY_HEADER || n > MAX_BINARY_FRAME then Bad
      else if |s| < 13 then Short
      else if !BinaryChannel(s[4]) then Bad
      else if |s| < 4 + n then Short
      else
        var f := BinaryFrame(s[4], U64(s[5..13]), s[13..4 + n]);
        if EndSequence(f).None? then Bad else Got(f, s[4 + n..])
  }

  lemma BinaryReads(f: BinaryFrame, rest: seq<byte>)
    requires BinaryOk(f)
    ensures ReadBinaryFrame(BinaryHeader(f) + f.data + rest) == Got(f, rest)
  {
    PowerValues();
    GetPut(BINARY_HEADER + |f.data|, 4);
    GetPut(f.start, 8);
    hide Put, Get, Power;
    var s, n := BinaryHeader(f) + f.data + rest, BINARY_HEADER + |f.data|;
    Parts4(Put(n, 4), [f.channel], Put(f.start, 8), f.data, rest);
    assert s == Put(n, 4) + [f.channel] + Put(f.start, 8) + f.data + rest;
    assert s[..4] == Put(n, 4);
    assert s[4..5] == [f.channel];
    assert s[4] == s[4..5][0];
    assert s[5..13] == Put(f.start, 8);
    assert s[13..4 + n] == f.data;
    assert s[4 + n..] == rest;
  }

  lemma BinaryRoundTrip(f: BinaryFrame, s: seq<byte>, rest: seq<byte>)
    ensures ReadBinaryFrame(s) == Got(f, rest) <==> BinaryOk(f) && s == BinaryHeader(f) + f.data + rest
  {
    if BinaryOk(f) && s == BinaryHeader(f) + f.data + rest { BinaryReads(f, rest); }
    if ReadBinaryFrame(s) == Got(f, rest) {
      PutGet(s[..4]);
      PutGet(s[5..13]);
      hide Put, Get;
      var n := BINARY_HEADER + |f.data|;
      Whole4(s, 4, 5, 13, 4 + n);
      assert s[4..5] == [s[4]];
    }
  }

  datatype WriteError = UnsupportedChannel | Oversized | InvalidFrame | WriteFailed

  /** Header first, then the data, each through `writeAll`. */
  method WriteBinaryFrame(w: Sink, f: BinaryFrame) returns (err: Option<WriteError>)
    modifies w
    ensures err.None? ==> BinaryOk(f) && w.written == old(w.written) + BinaryHeader(f) + f.data
    ensures BinaryOk(f) <==> err.None? || err == Some(WriteFailed)
    ensures !BinaryOk(f) ==> w.written == old(w.written)
  {
    if !BinaryChannel(f.channel) {
      return Some(UnsupportedChannel);
    }
    if |f.data| > MAX_BINARY_FRAME - BINARY_HEADER {
      return Some(Oversized);
    }
    if EndSequence(f).None? {
      return Some(InvalidFrame);
    }
    var ok := WriteFull(w, BinaryHeader(f));
    if !ok {
      return Some(WriteFailed);
    }
    ok := WriteFull(w, f.data);
    return if ok then None else Some(WriteFailed);
  }
}
