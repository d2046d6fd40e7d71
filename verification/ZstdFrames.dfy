/** Where a zstd frame ends (internal/protocol/terminal_v1.go), against the format of RFC 8878. */
module ZstdFrames {
  import opened Basics

  /** What the zstd library says about a payload. */
  datatype ZstdHeader = ZstdHeader(size: nat, skippable: bool, dictionary: nat, contentSize: Option<nat>,
                                   singleSegment: bool, window: nat, checksum: bool)

  // ----- block headers -----

  /** Three bytes, least significant first. */
  function HeaderAt(payload: seq<byte>, offset: nat): nat
    requires offset + 3 <= |payload|
  {
    payload[offset] as nat + payload[offset + 1] as nat * 256 + payload[offset + 2] as nat * 65536
  }

  predicate Last(h: nat) { h % 2 == 1 }

  function Code(h: nat): nat { (h / 2) % 4 }

  function Size(h: nat): nat { h / 8 }

  /** How many bytes follow the header; a run-length block holds one. */
  function Follows(h: nat): nat { if Code(h) == 1 then 1 else Size(h) }

  // ----- the code -----

  /** Where a chain of blocks that starts at `offset` ends, with the checksum. */
  function FrameEnd(payload: seq<byte>, offset: nat, checksum: bool): Option<nat>
    decreases |payload| - offset
  {
    if |payload| - offset < 3 then None
    else
      var h := HeaderAt(payload, offset);
      var next := offset + 3 + Follows(h);
      if Code(h) == 3 || next > |payload| then None
      else if !Last(h) then FrameEnd(payload, next, checksum)
      else if checksum then (if |payload| - next < 4 then None else Some(next + 4))
      else Some(next)
  }

  function FrameSize(payload: seq<byte>, h: ZstdHeader): Option<nat> { FrameEnd(payload, h.size, h.checksum) }

  /** The loop of `zstdFrameSize`: it reads no byte beyond the payload, and it ends. */
  method ZstdFrameSize(payload: seq<byte>, h: ZstdHeader) returns (r: Option<nat>)
    ensures r == FrameSize(payload, h)
    ensures r.Some? ==> h.size <= r.value <= |payload|
  {
    var offset: nat := h.size;
    while true
      invariant h.size <= offset && FrameEnd(payload, offset, h.checksum) == FrameSize(payload, h)
      decreases |payload| - offset
    {
      if |payload| - offset < 3 {
        return None;
      }
      var block := payload[offset] as nat + payload[offset + 1] as nat * 256 + payload[offset + 2] as nat * 65536;
      offset := offset + 3;
      var last, kind, size := block % 2 == 1, (block / 2) % 4, block / 8;
      if kind == 3 {
        return None;
      }
      var content := if kind == 1 then 1 else size;
      if content > |payload| - offset {
        return None;
      }
      offset := offset + content;
      if last {
        if h.checksum {
          if |payload| - offset < 4 {
            return None;
          }
          offset := offset + 4;
        }
        return Some(offset);
      }
    }
  }

  // ----- the format -----

  /** A block as section 3.1.1.2 of RFC 8878 describes it; the fourth kind is reserved. */
  datatype Kind = RawBlock | RleBlock | CompressedBlock
  datatype Block = Block(last: bool, kind: Kind, size: nat, content: seq<byte>)

  predicate BlockOk(b: Block) {
    b.size < 0x20_0000 && |b.content| == if b.kind.RleBlock? then 1 else b.size
  }

  function KindCode(k: Kind): nat { match k case RawBlock => 0 case RleBlock => 1 case CompressedBlock => 2 }

  function BlockHeader(b: Block): nat { b.size * 8 + KindCode(b.kind) * 2 + if b.last then 1 else 0 }

  function ThreeBytes(h: nat): seq<byte>
    requires h < 0x100_0000
  {
    [(h % 256) as byte, (h / 256 % 256) as byte, (h / 65536) as byte]
  }

  function BlockBytes(b: Block): (s: seq<byte>)
    requires BlockOk(b)
    ensures |s| == 3 + |b.content|
  {
    ThreeBytes(BlockHeader(b)) + b.content
  }

  /** Blocks one after the other; exactly the last one is marked as such. */
  ghost predicate IsChain(s: seq<byte>, blocks: seq<Block>)
    decreases |blocks|
  {
    && blocks != [] && BlockOk(blocks[0])
    && var size := |BlockBytes(blocks[0])|;
    && size <= |s| && s[..size] == BlockBytes(blocks[0])
    && if |blocks| == 1 then blocks[0].last && |s| == size else !blocks[0].last && IsChain(s[size..], blocks[1..])
  }

  ghost predicate Chained(s: seq<byte>) { exists blocks :: IsChain(s, blocks) }

  /** Section 3.1.1: the blocks, and four more bytes when there is a checksum. */
  ghost predicate FrameBody(s: seq<byte>, checksum: bool) {
    var tail := if checksum then 4 else 0;
    |s| >= tail && Chained(s[..|s| - tail])
  }

  // ----- headers and fields -----

  lemma ThreeBytesOf(a: byte, b: byte, c: byte)
    ensures var h := a as nat + b as nat * 256 + c as nat * 65536; h < 0x100_0000 && ThreeBytes(h) == [a, b, c]
  {
    var low := b as nat + c as nat * 256;
    var h := a as nat + low * 256;
    assert h / 256 == low && h % 256 == a as nat;
    assert low / 256 == c as nat && low % 256 == b as nat;
    assert h / 65536 == low / 256;
  }

  lemma ThreeBytesBack(h: nat)
    requires h < 0x100_0000
    ensures var s := ThreeBytes(h); s[0] as nat + s[1] as nat * 256 + s[2] as nat * 65536 == h
  {
  }

  lemma FieldsOf(b: Block)
    ensures var h := BlockHeader(b); Last(h) == b.last && Code(h) == KindCode(b.kind) && Size(h) == b.size
  {
  }

  lemma HeaderOf(h: nat)
    requires h < 0x100_0000
    ensures Size(h) < 0x20_0000 && h == Size(h) * 8 + Code(h) * 2 + if Last(h) then 1 else 0
  {
  }

  function KindOf(code: nat): Kind { if code == 0 then RawBlock else if code == 1 then RleBlock else CompressedBlock }

  /** The block at `offset`, when the header is not reserved and the content is there. */
  lemma ReadBlock(payload: seq<byte>, offset: nat) returns (b: Block)
    requires offset + 3 <= |payload|
    requires var h := HeaderAt(payload, offset); Code(h) != 3 && offset + 3 + Follows(h) <= |payload|
    ensures var h := HeaderAt(payload, offset);
      && BlockOk(b) && |b.content| == Follows(h) && b.last == Last(h)
      && BlockBytes(b) == payload[offset..offset + 3 + Follows(h)]
  {
    var h := HeaderAt(payload, offset);
    ThreeBytesOf(payload[offset], payload[offset + 1], payload[offset + 2]);
    HeaderOf(h);
    hide ThreeBytes, Last, Size;
    b := Block(Last(h), KindOf(Code(h)), Size(h), payload[offset + 3..offset + 3 + Follows(h)]);
    assert BlockHeader(b) == h;
    assert payload[offset..offset + 3 + Follows(h)]
           == [payload[offset], payload[offset + 1], payload[offset + 2]] + payload[offset + 3..offset + 3 + Follows(h)];
  }

  /** The header at the start of a block gives its fields. */
  lemma BlockReads(payload: seq<byte>, offset: nat, b: Block)
    requires BlockOk(b) && offset + |BlockBytes(b)| <= |payload| && payload[offset..offset + |BlockBytes(b)|] == BlockBytes(b)
    ensures var h := HeaderAt(payload, offset);
      Last(h) == b.last && Code(h) != 3 && offset + 3 + Follows(h) == offset + |BlockBytes(b)|
  {
    var part := payload[offset..offset + |BlockBytes(b)|];
    assert part[0] == payload[offset] && part[1] == payload[offset + 1] && part[2] == payload[offset + 2];
    ThreeBytesBack(BlockHeader(b));
    FieldsOf(b);
    hide ThreeBytes, Last, Size, Code, BlockHeader;
  }

  lemma ChainCons(s: seq<byte>, b: Block, blocks: seq<Block>)
    requires BlockOk(b) && !b.last && |BlockBytes(b)| <= |s| && s[..|BlockBytes(b)|] == BlockBytes(b)
    requires IsChain(s[|BlockBytes(b)|..], blocks)
    ensures IsChain(s, [b] + blocks)
  {
  }

  // ----- the code finds exactly the format -----

  /** What the loop accepts is a chain of blocks. */
  lemma {:induction false} EndIsChain(payload: seq<byte>, offset: nat, checksum: bool)
    requires FrameEnd(payload, offset, checksum).Some?
    ensures var n, tail := FrameEnd(payload, offset, checksum).value, if checksum then 4 else 0;
      offset <= n - tail && n <= |payload| && Chained(payload[offset..n - tail])
    decreases |payload| - offset
  {
    hide HeaderAt, Last, Size, Code, BlockBytes;
    var n, tail := FrameEnd(payload, offset, checksum).value, if checksum then 4 else 0;
    var b := ReadBlock(payload, offset);
    var next := offset + |BlockBytes(b)|;
    if b.last {
      assert payload[offset..n - tail] == BlockBytes(b);
      assert IsChain(payload[offset..n - tail], [b]);
    } else {
      EndIsChain(payload, next, checksum);
      var s := payload[offset..n - tail];
      var blocks :| IsChain(payload[next..n - tail], blocks);
      SliceOfSlice(payload, offset, n - tail, 0, next - offset);
      SliceOfSlice(payload, offset, n - tail, next - offset, n - tail - offset);
      assert s[0..next - offset] == s[..next - offset] && s[next - offset..n - tail - offset] == s[next - offset..];
      ChainCons(s, b, blocks);
    }
  }

  /** A chain of blocks is accepted, with exactly its length. */
  lemma {:induction false} ChainEnds(payload: seq<byte>, offset: nat, n: nat, checksum: bool, blocks: seq<Block>)
    requires var tail := if checksum then 4 else 0;
      offset <= n - tail && n <= |payload| && IsChain(payload[offset..n - tail], blocks)
    ensures FrameEnd(payload, offset, checksum) == Some(n)
    decreases |blocks|
  {
    hide HeaderAt, Last, Size, Code, BlockBytes, Follows;
    var tail, b := if checksum then 4 else 0, blocks[0];
    var s, next := payload[offset..n - tail], offset + |BlockBytes(blocks[0])|;
    SliceOfSlice(payload, offset, n - tail, 0, next - offset);
    assert s[0..next - offset] == s[..next - offset];
    BlockReads(payload, offset, b);
    if |blocks| > 1 {
      SliceOfSlice(payload, offset, n - tail, next - offset, n - tail - offset);
      assert s[next - offset..n - tail - offset] == s[next - offset..];
      ChainEnds(payload, next, n, checksum, blocks[1..]);
    }
  }

  /** The frame size is `n` exactly when the bytes from the end of the header to `n` are a chain of
      complete blocks, the last one marked, followed by the checksum if there is one. */
  lemma FrameSizeIsChain(payload: seq<byte>, h: ZstdHeader, n: nat)
    ensures FrameSize(payload, h) == Some(n) <==> h.size <= n <= |payload| && FrameBody(payload[h.size..n], h.checksum)
  {
    hide FrameEnd, IsChain;
    var tail := if h.checksum then 4 else 0;
    if h.size + tail <= n <= |payload| {
      assert payload[h.size..n][..n - h.size - tail] == payload[h.size..n - tail];
    }
    if FrameSize(payload, h) == Some(n) { EndIsChain(payload, h.size, h.checksum); }
    if h.size <= n <= |payload| && FrameBody(payload[h.size..n], h.checksum) {
      var blocks :| IsChain(payload[h.size..n - tail], blocks);
      ChainEnds(payload, h.size, n, h.checksum, blocks);
    }
  }
}
