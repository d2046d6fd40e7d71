/** Terminal messages (internal/protocol/terminal_v1.go). */
module TerminalFrames {
  import opened Basics
  import opened BigEndian
  import opened ZstdFrames

  const INPUT: byte := 1
  const OUTPUT: byte := 2
  const ACK: byte := 3
  const RESIZE: byte := 4

  const STDOUT: byte := 1
  const STDERR: byte := 2

  const MAX_BINARY_FRAME: nat := 0x4_0000
  const INPUT_HEADER: nat := 13
  const OUTPUT_HEADER: nat := 19
  const MAX_OUTPUT: nat := MAX_BINARY_FRAME - OUTPUT_HEADER

  datatype InputFrame = InputFrame(stream: u32, sequence: u64, data: seq<byte>)
  datatype AckFrame = AckFrame(stream: u32, next: u64)
  datatype ResizeFrame = ResizeFrame(stream: u32, columns: u16, rows: u16, sequence: u64)

  lemma Get2(s: seq<byte>) requires |s| == 2 ensures Get(s) < 0x1_0000 { PutGet(s); PowerValues(); }
  lemma Get4(s: seq<byte>) requires |s| == 4 ensures Get(s) < 0x1_0000_0000 { PutGet(s); PowerValues(); }
  lemma Get8(s: seq<byte>) requires |s| == 8 ensures Get(s) < 0x1_0000_0000_0000_0000 { PutGet(s); PowerValues(); }

  function U16(s: seq<byte>): u16 requires |s| == 2 { Get2(s); Get(s) }
  function U32(s: seq<byte>): u32 requires |s| == 4 { Get4(s); Get(s) }
  function U64(s: seq<byte>): u64 requires |s| == 8 { Get8(s); Get(s) }

  // ----- input -----

  function EncodeInput(f: InputFrame): Option<seq<byte>> {
    if f.stream == 0 || f.sequence == 0 || |f.data| == 0 || |f.data| > MAX_BINARY_FRAME - INPUT_HEADER then None
    else Some([INPUT] + Put(f.stream, 4) + Put(f.sequence, 8) + f.data)
  }

  function DecodeInput(m: seq<byte>): Option<InputFrame> {
    if |m| <= INPUT_HEADER || |m| > MAX_BINARY_FRAME || m[0] != INPUT then None
    else
      var f := InputFrame(U32(m[1..5]), U64(m[5..13]), m[13..]);
      if f.stream == 0 || f.sequence == 0 then None else Some(f)
  }

  /** Decoding undoes encoding, and whatever is decoded encodes to the same bytes. */
  lemma InputRoundTrip(f: InputFrame, m: seq<byte>)
    ensures EncodeInput(f) == Some(m) <==> DecodeInput(m) == Some(f)
  {
    PowerValues();
    GetPut(f.stream, 4);
    GetPut(f.sequence, 8);
    if EncodeInput(f) == Some(m) {
      assert m[1..5] == Put(f.stream, 4) && m[5..13] == Put(f.sequence, 8) && m[13..] == f.data;
    }
    if DecodeInput(m) == Some(f) {
      PutGet(m[1..5]);
      PutGet(m[5..13]);
      assert m == [m[0]] + m[1..5] + m[5..13] + m[13..];
    }
  }

  // ----- acknowledgements -----

  function EncodeAck(f: AckFrame): Option<seq<byte>> {
    if f.stream == 0 then None else Some([ACK] + Put(f.stream, 4) + Put(f.next, 8))
  }

  function DecodeAck(m: seq<byte>): Option<AckFrame> {
    if |m| != 13 || m[0] != ACK then None
    else
      var f := AckFrame(U32(m[1..5]), U64(m[5..13]));
      if f.stream == 0 then None else Some(f)
  }

  lemma AckRoundTrip(f: AckFrame, m: seq<byte>)
    ensures EncodeAck(f) == Some(m) <==> DecodeAck(m) == Some(f)
  {
    PowerValues();
    GetPut(f.stream, 4);
    GetPut(f.next, 8);
    if EncodeAck(f) == Some(m) {
      assert m[1..5] == Put(f.stream, 4) && m[5..13] == Put(f.next, 8);
    }
    if DecodeAck(m) == Some(f) {
      PutGet(m[1..5]);
      PutGet(m[5..13]);
      assert m == [m[0]] + m[1..5] + m[5..13];
    }
  }

  // ----- resizing -----

  function EncodeResize(f: ResizeFrame): Option<seq<byte>> {
    if f.stream == 0 || f.columns == 0 || f.rows == 0 || f.sequence == 0 then None
    else Some([RESIZE] + Put(f.stream, 4) + Put(f.columns, 2) + Put(f.rows, 2) + Put(f.sequence, 8))
  }

  function DecodeResize(m: seq<byte>): Option<ResizeFrame> {
    if |m| != 17 || m[0] != RESIZE then None
    else
      var f := ResizeFrame(U32(m[1..5]), U16(m[5..7]), U16(m[7..9]), U64(m[9..17]));
      if f.stream == 0 || f.columns == 0 || f.rows == 0 || f.sequence == 0 then None else Some(f)
  }

  lemma ResizeDecodes(f: ResizeFrame)
    requires EncodeResize(f).Some?
    ensures DecodeResize(EncodeResize(f).value) == Some(f)
  {
    PowerValues();
    GetPut(f.stream, 4);
    GetPut(f.columns, 2);
    GetPut(f.rows, 2);
    GetPut(f.sequence, 8);
    Parts4([RESIZE], Put(f.stream, 4), Put(f.columns, 2), Put(f.rows, 2), Put(f.sequence, 8));
    hide Put, Get, Power;
  }

  lemma ResizeRoundTrip(f: ResizeFrame, m: seq<byte>)
    ensures EncodeResize(f) == Some(m) <==> DecodeResize(m) == Some(f)
  {
    hide Put, Get;
    if EncodeResize(f) == Some(m) { ResizeDecodes(f); }
    if DecodeResize(m) == Some(f) {
      PutGet(m[1..5]);
      PutGet(m[5..7]);
      PutGet(m[7..9]);
      PutGet(m[9..17]);
      Whole4(m, 1, 5, 7, 9);
      assert m[..1] == [RESIZE] && m[9..] == m[9..17];
    }
  }

  // ----- output -----

  const RAW: byte := 0
  const ZSTD: byte := 1

  /** `length` is the declared length of the uncompressed data. */
  datatype OutputFrame = OutputFrame(channel: byte, stream: u32, start: u64, encoding: byte, length: u32, data: seq<byte>)

  function Declared(f: OutputFrame): u32 {
    if f.length == 0 && f.encoding == RAW then |f.data| % 0x1_0000_0000 else f.length
  }

  predicate ChannelOk(channel: byte) { channel == STDOUT || channel == STDERR }

  predicate EncodingOk(encoding: byte) { encoding == RAW || encoding == ZSTD }

  predicate SequenceFits(start: u64, length: u32) { length <= 0xFFFF_FFFF_FFFF_FFFF - start }

  function OutputHeader(channel: byte, encoding: byte, stream: u32, start: u64, length: u32): seq<byte> {
    [OUTPUT, channel, encoding] + Put(stream, 4) + Put(start, 8) + Put(length, 4)
  }

  function EncodeOutput(f: OutputFrame): Option<seq<byte>> {
    var declared := Declared(f);
    if !ChannelOk(f.channel) || f.stream == 0 || |f.data| == 0 || |f.data| > MAX_OUTPUT
       || declared == 0 || declared > MAX_OUTPUT || !SequenceFits(f.start, declared) then None
    else if !EncodingOk(f.encoding) then None
    else if f.encoding == RAW && declared != |f.data| then None
    else Some(OutputHeader(f.channel, f.encoding, f.stream, f.start, declared) + f.data)
  }

  datatype Zstd = Zstd(header: seq<byte> -> Option<ZstdHeader>, decompress: seq<byte> -> Option<seq<byte>>)

  /** A single frame without dictionary that declares `length` bytes and fills the payload. */
  predicate SingleFrame(z: Zstd, payload: seq<byte>, length: nat) {
    match z.header(payload)
    case None => false
    case Some(h) =>
      && !h.skippable && h.dictionary == 0 && h.contentSize == Some(length) && (h.singleSegment || h.window <= MAX_OUTPUT)
      && FrameSize(payload, h) == Some(|payload|)
  }

  datatype OutputInfo = OutputInfo(channel: byte, encoding: byte, stream: u32, start: u64, length: u32)

  /** `InspectTerminalOutput`. */
  function Inspect(z: Zstd, m: seq<byte>): Option<OutputInfo> {
    if |m| <= OUTPUT_HEADER || |m| > MAX_BINARY_FRAME || m[0] != OUTPUT || !ChannelOk(m[1]) || !EncodingOk(m[2]) then None
    else
      var info := OutputInfo(m[1], m[2], U32(m[3..7]), U64(m[7..15]), U32(m[15..19]));
      var payload := m[19..];
      if info.stream == 0 || info.length == 0 || info.length > MAX_OUTPUT || !SequenceFits(info.start, info.length) then None
      else if info.encoding == RAW then (if |payload| == info.length then Some(info) else None)
      else if SingleFrame(z, payload, info.length) then Some(info) else None
  }

  function DecodeOutput(z: Zstd, m: seq<byte>): Option<OutputFrame> {
    match Inspect(z, m)
    case None => None
    case Some(info) =>
      var data := if info.encoding == RAW then Some(m[19..]) else z.decompress(m[19..]);
      if data.None? || |data.value| != info.length then None
      else Some(OutputFrame(info.channel, info.stream, info.start, info.encoding, info.length, data.value))
  }

  lemma HeaderReads(channel: byte, encoding: byte, stream: u32, start: u64, length: u32, payload: seq<byte>)
    ensures var m := OutputHeader(channel, encoding, stream, start, length) + payload;
      && |m| == OUTPUT_HEADER + |payload| && m[0] == OUTPUT && m[1] == channel && m[2] == encoding && m[19..] == payload
      && U32(m[3..7]) == stream && U64(m[7..15]) == start && U32(m[15..19]) == length
  {
    PowerValues();
    GetPut(stream, 4);
    GetPut(start, 8);
    GetPut(length, 4);
    hide Put, Get, Power;
    var t := [OUTPUT, channel, encoding];
    Parts4(t, Put(stream, 4), Put(start, 8), Put(length, 4), payload);
    var m := t + Put(stream, 4) + Put(start, 8) + Put(length, 4) + payload;
    assert m[0] == m[..3][0] && m[1] == m[..3][1] && m[2] == m[..3][2];
  }

  lemma HeaderRebuilds(m: seq<byte>)
    requires |m| >= OUTPUT_HEADER && m[0] == OUTPUT
    ensures m == OutputHeader(m[1], m[2], U32(m[3..7]), U64(m[7..15]), U32(m[15..19])) + m[19..]
  {
    PutGet(m[3..7]);
    PutGet(m[7..15]);
    PutGet(m[15..19]);
    hide Put, Get;
    assert m == [m[0], m[1], m[2]] + m[3..7] + m[7..15] + m[15..19] + m[19..];
  }

  /** Raw output: decoding undoes encoding, and a decoded raw message encodes to the same bytes. */
  lemma RawRoundTrip(z: Zstd, f: OutputFrame, m: seq<byte>)
    requires f.encoding == RAW && f.length == |f.data|
    ensures EncodeOutput(f) == Some(m) <==> DecodeOutput(z, m) == Some(f)
  {
    hide OutputHeader, SingleFrame, U32, U64;
    if EncodeOutput(f) == Some(m) {
      HeaderReads(f.channel, f.encoding, f.stream, f.start, Declared(f), f.data);
    }
    if DecodeOutput(z, m) == Some(f) {
      HeaderRebuilds(m);
    }
  }

  // ----- adaptive output -----

  const MIN_COMPRESS: nat := 1024
  const MIN_SAVINGS_BYTES: nat := 32
  const MIN_SAVINGS_PERCENT: nat := 5

  predicate WorthIt(compressed: nat, raw: nat) {
    compressed + MIN_SAVINGS_BYTES <= raw && compressed * 100 <= raw * (100 - MIN_SAVINGS_PERCENT)
  }

  /** The encoding and payload that adaptive output chooses. */
  function Choice(data: seq<byte>, compress: seq<byte> -> seq<byte>): (byte, seq<byte>) {
    if |data| >= MIN_COMPRESS && WorthIt(|compress(data)|, |data|) then (ZSTD, compress(data)) else (RAW, data)
  }

  function EncodeAdaptive(f: OutputFrame, compress: seq<byte> -> seq<byte>): Option<seq<byte>> {
    var (encoding, payload) := Choice(f.data, compress);
    EncodeOutput(f.(encoding := encoding, length := |f.data| % 0x1_0000_0000, data := payload))
  }

  /** For data that may be sent, the frames of the compressor pass inspection and decompress to what
      went in; and no frame declares another size than that of what went in. */
  ghost predicate Lossless(z: Zstd, compress: seq<byte> -> seq<byte>) {
    && (forall d :: 0 < |d| <= MAX_OUTPUT ==> LosslessOn(z, compress, d))
    && (forall d, n :: SingleFrame(z, compress(d), n) ==> n == |d|)
  }

  predicate LosslessOn(z: Zstd, compress: seq<byte> -> seq<byte>, d: seq<byte>) {
    compress(d) != [] && z.decompress(compress(d)) == Some(d) && SingleFrame(z, compress(d), |d|)
  }

  /** What may be sent: something, not too much, on a real stream, within the sequence numbers. */
  predicate Sendable(f: OutputFrame) {
    ChannelOk(f.channel) && f.stream != 0 && 0 < |f.data| <= MAX_OUTPUT && |f.data| <= 0xFFFF_FFFF_FFFF_FFFF - f.start
  }

  /** Encoding a payload that declares `length` bytes. */
  lemma Encodes(f: OutputFrame, encoding: byte, length: u32, payload: seq<byte>)
    requires EncodingOk(encoding) && 0 < |payload| && length > 0 && (encoding == RAW ==> length == |payload|)
    ensures EncodeOutput(f.(encoding := encoding, length := length, data := payload)) ==
      if ChannelOk(f.channel) && f.stream != 0 && |payload| <= MAX_OUTPUT && length <= MAX_OUTPUT && SequenceFits(f.start, length)
      then Some(OutputHeader(f.channel, encoding, f.stream, f.start, length) + payload) else None
  {
  }

  lemma SizeRefused(f: OutputFrame)
    requires f.data == [] || Declared(f) > MAX_OUTPUT
    ensures EncodeOutput(f).None?
  {
  }

  lemma ChoiceFits(z: Zstd, data: seq<byte>, compress: seq<byte> -> seq<byte>)
    requires Lossless(z, compress)
    ensures var (encoding, payload) := Choice(data, compress);
      && EncodingOk(encoding) && |payload| <= |data| && (encoding == RAW ==> payload == data)
      && (0 < |data| <= MAX_OUTPUT ==> payload != [])
      && (encoding == ZSTD && 0 < |data| <= MAX_OUTPUT ==> SingleFrame(z, payload, |data|) && z.decompress(payload) == Some(data))
  {
  }

  lemma AdaptiveSends(z: Zstd, f: OutputFrame, compress: seq<byte> -> seq<byte>)
    requires Lossless(z, compress) && |f.data| < 0x1_0000_0000
    ensures EncodeAdaptive(f, compress).Some? <==> Sendable(f)
    ensures var (encoding, payload) := Choice(f.data, compress);
      Sendable(f) ==>
        EncodeAdaptive(f, compress) == Some(OutputHeader(f.channel, encoding, f.stream, f.start, |f.data|) + payload)
  {
    hide OutputHeader, Lossless, Choice, EncodeOutput, SingleFrame;
    ChoiceFits(z, f.data, compress);
    var (encoding, payload) := Choice(f.data, compress);
    if f.data == [] || |f.data| > MAX_OUTPUT {
      SizeRefused(f.(encoding := encoding, length := |f.data| % 0x1_0000_0000, data := payload));
    } else {
      Encodes(f, encoding, |f.data|, payload);
    }
  }

  /** A payload that stands for `data` is decoded to it. */
  lemma Arrives(z: Zstd, f: OutputFrame, encoding: byte, payload: seq<byte>)
    requires Sendable(f) && 0 < |payload| <= MAX_OUTPUT
    requires (encoding == RAW && payload == f.data)
      || (encoding == ZSTD && SingleFrame(z, payload, |f.data|) && z.decompress(payload) == Some(f.data))
    ensures DecodeOutput(z, OutputHeader(f.channel, encoding, f.stream, f.start, |f.data|) + payload)
            == Some(f.(encoding := encoding, length := |f.data|))
  {
    HeaderReads(f.channel, encoding, f.stream, f.start, |f.data|, payload);
    hide OutputHeader, SingleFrame, U32, U64;
  }

  lemma FalseFrameRefused(z: Zstd, channel: byte, stream: u32, start: u64, length: u32, payload: seq<byte>)
    requires !SingleFrame(z, payload, length)
    ensures DecodeOutput(z, OutputHeader(channel, ZSTD, stream, start, length) + payload).None?
  {
    HeaderReads(channel, ZSTD, stream, start, length, payload);
    hide OutputHeader, SingleFrame, U32, U64;
  }

  lemma EncodesWhat(f: OutputFrame)
    requires EncodeOutput(f).Some?
    ensures EncodeOutput(f).value == OutputHeader(f.channel, f.encoding, f.stream, f.start, Declared(f)) + f.data
    ensures |f.data| <= MAX_OUTPUT && (f.encoding != RAW ==> Declared(f) == f.length)
  {
  }

  /** What is declared with another length than its own is refused by the receiver. */
  lemma WrappedRefused(z: Zstd, f: OutputFrame, compress: seq<byte> -> seq<byte>)
    requires Lossless(z, compress) && |f.data| >= 0x1_0000_0000
    ensures EncodeAdaptive(f, compress).Some? ==> DecodeOutput(z, EncodeAdaptive(f, compress).value).None?
  {
    hide OutputHeader, SingleFrame, DecodeOutput, EncodeOutput, Declared;
    var (encoding, payload) := Choice(f.data, compress);
    var g := f.(encoding := encoding, length := |f.data| % 0x1_0000_0000, data := payload);
    if EncodeAdaptive(f, compress).Some? {
      EncodesWhat(g);
      assert encoding == ZSTD && payload == compress(f.data);
      FalseFrameRefused(z, g.channel, g.stream, g.start, g.length, payload);
    }
  }

  /** With any lossless compressor, and for all data: output arrives if and only if it may be sent, and what
      arrives is unchanged, whichever encoding was chosen. Below 4 GiB nothing else is even sent; above it
      the declared length wraps, and what is sent then is refused. */
  lemma AdaptiveRoundTrip(z: Zstd, f: OutputFrame, compress: seq<byte> -> seq<byte>)
    requires Lossless(z, compress)
    ensures EncodeAdaptive(f, compress).Some? ==> Sendable(f) || |f.data| >= 0x1_0000_0000
    ensures Sendable(f) <==>
      EncodeAdaptive(f, compress).Some? && DecodeOutput(z, EncodeAdaptive(f, compress).value).Some?
    ensures Sendable(f) ==>
      var r := DecodeOutput(z, EncodeAdaptive(f, compress).value).value;
      r.data == f.data && r.channel == f.channel && r.stream == f.stream && r.start == f.start && r.length == |f.data|
  {
    hide OutputHeader, SingleFrame, EncodeAdaptive, DecodeOutput, Lossless, Choice;
    if |f.data| < 0x1_0000_0000 {
      AdaptiveSends(z, f, compress);
      if Sendable(f) {
        ChoiceFits(z, f.data, compress);
        var (encoding, payload) := Choice(f.data, compress);
        Arrives(z, f, encoding, payload);
      }
    } else if EncodeAdaptive(f, compress).Some? {
      WrappedRefused(z, f, compress);
    }
  }

  /** Output is compressed exactly if there are 1024 bytes of it and that saves 32 bytes and a twentieth of it; so a
      message is never longer than with the raw output. */
  lemma CompressedExactly(z: Zstd, f: OutputFrame, compress: seq<byte> -> seq<byte>)
    requires Lossless(z, compress) && Sendable(f)
    ensures EncodeAdaptive(f, compress).Some? && DecodeOutput(z, EncodeAdaptive(f, compress).value).Some?
    ensures var m, c, n := EncodeAdaptive(f, compress).value, |compress(f.data)|, |f.data|;
      var packed := n >= 1024 && n - c >= 32 && 20 * (n - c) >= n;
      && DecodeOutput(z, m).value.encoding == (if packed then ZSTD else RAW)
      && |m| == OUTPUT_HEADER + (if packed then c else n) && |m| <= OUTPUT_HEADER + n
  {
    hide SingleFrame, EncodeAdaptive, DecodeOutput, Lossless, OutputHeader;
    AdaptiveSends(z, f, compress);
    ChoiceFits(z, f.data, compress);
    var (encoding, payload) := Choice(f.data, compress);
    Arrives(z, f, encoding, payload);
    HeaderLength(f.channel, encoding, f.stream, f.start, |f.data|);
  }

  lemma HeaderLength(channel: byte, encoding: byte, stream: u32, start: u64, length: u32)
    ensures |OutputHeader(channel, encoding, stream, start, length)| == OUTPUT_HEADER
  {
  }

  /** Such compressors exist: storing the data in one raw block is one. */
  function Stored(d: seq<byte>): seq<byte> {
    if 0 < |d| <= MAX_OUTPUT then BlockBytes(Block(true, RawBlock, |d|, d)) else []
  }

  const STORED: Zstd := Zstd(
    p => if |p| < 3 then None else Some(ZstdHeader(0, false, 0, Some(|p| - 3), true, 0, false)),
    p => if |p| < 3 then None else Some(p[3..]))

  lemma StoredIsLossless()
    ensures Lossless(STORED, Stored)
  {
    forall d: seq<byte> | 0 < |d| <= MAX_OUTPUT ensures LosslessOn(STORED, Stored, d) {
      var b := Block(true, RawBlock, |d|, d);
      var p := Stored(d);
      assert p[3..] == d && p[0..|p|] == p;
      assert IsChain(p, [b]) by { assert p[..|p|] == p; }
      ChainEnds(p, 0, |p|, false, [b]);
    }
    forall d: seq<byte>, n: nat | SingleFrame(STORED, Stored(d), n) ensures n == |d| {
      if 0 < |d| <= MAX_OUTPUT { assert |Stored(d)| == 3 + |d|; }
    }
  }

  // ----- encoding in place -----

  /** The given buffer if it is large enough, otherwise a new one. */
  method GrowFrame(dst: array<byte>, size: nat) returns (out: array<byte>)
    ensures out.Length >= size && (out == dst || fresh(out)) && (dst.Length >= size ==> out == dst)
  {
    if dst.Length < size {
      out := new byte[size](i => 0);
    } else {
      out := dst;
    }
  }

  method Fill(dst: array<byte>, at: nat, data: seq<byte>)
    requires at + |data| <= dst.Length
    modifies dst
    ensures forall i :: 0 <= i < dst.Length ==> dst[i] == if at <= i < at + |data| then data[i - at] else old(dst[i])
  {
    for k := 0 to |data|
      invariant forall i :: 0 <= i < dst.Length ==> dst[i] == if at <= i < at + k then data[i - at] else old(dst[i])
    {
      dst[at + k] := data[k];
    }
  }

  /** `EncodeTerminalOutput` writes field after field into the buffer it was given or a larger one. */
  method EncodeOutputInto(f: OutputFrame, dst: array<byte>) returns (ok: bool, out: array<byte>, size: nat)
    modifies dst
    ensures ok <==> EncodeOutput(f).Some?
    ensures out == dst || fresh(out)
    ensures ok ==> size <= out.Length && out[..size] == EncodeOutput(f).value
    ensures !ok ==> out == dst && out[..] == old(dst[..])
  {
    var declared := Declared(f);
    out, size := dst, 0;
    if !ChannelOk(f.channel) || f.stream == 0 || |f.data| == 0 || |f.data| > MAX_OUTPUT
       || declared == 0 || declared > MAX_OUTPUT || !SequenceFits(f.start, declared) || !EncodingOk(f.encoding)
       || (f.encoding == RAW && declared != |f.data|) {
      return false, out, size;
    }
    ok, size := true, OUTPUT_HEADER + |f.data|;
    out := GrowFrame(dst, size);
    hide Put;
    Fill(out, 0, [OUTPUT, f.channel, f.encoding]);
    Fill(out, 3, Put(f.stream, 4));
    Fill(out, 7, Put(f.start, 8));
    Fill(out, 15, Put(declared, 4));
    Fill(out, 19, f.data);
    assert out[..size] == OutputHeader(f.channel, f.encoding, f.stream, f.start, declared) + f.data;
  }
}
