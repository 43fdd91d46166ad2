/** Walking the chunks of an image file: PNG chunks (section 5.3 of the PNG
    Specification) and RIFF chunks of WebP (section 2.3 of RFC 9649). */
module ChunkWalk {
  type Byte = n: nat | n < 0x100
  type Bytes = seq<Byte>

  datatype Format = Png | WebP

  // ----- Four-byte numbers -----

  function BigEndian(b: Bytes): nat
    requires |b| == 4
  {
    (((b[0] as nat) * 0x100 + b[1] as nat) * 0x100 + b[2] as nat) * 0x100 + b[3] as nat
  }

  function LittleEndian(b: Bytes): nat
    requires |b| == 4
  {
    BigEndian([b[3], b[2], b[1], b[0]])
  }

  function BigBytes(n: nat): (b: Bytes)
    requires n < 0x1_0000_0000
    ensures |b| == 4
  {
    [n / 0x100_0000, n / 0x1_0000 % 0x100, n / 0x100 % 0x100, n % 0x100]
  }

  function LittleBytes(n: nat): (b: Bytes)
    requires n < 0x1_0000_0000
    ensures |b| == 4
  {
    [n % 0x100, n / 0x100 % 0x100, n / 0x1_0000 % 0x100, n / 0x100_0000]
  }

  lemma NumbersRoundTrip(n: nat)
    requires n < 0x1_0000_0000
    ensures BigEndian(BigBytes(n)) == n && LittleEndian(LittleBytes(n)) == n
  {
    var a, b, c := n / 0x100, n / 0x1_0000, n / 0x100_0000;
    assert b == a / 0x100 && c == b / 0x100;
    assert n == a * 0x100 + n % 0x100 && a == b * 0x100 + a % 0x100 && b == c * 0x100 + b % 0x100;
  }

  // ----- The chain -----

  const PngSignature: Bytes := [0x89, 0x50, 0x4E, 0x47, 0x0D, 0x0A, 0x1A, 0x0A]
  const Riff: Bytes := [0x52, 0x49, 0x46, 0x46]
  const WebPName: Bytes := [0x57, 0x45, 0x42, 0x50]

  function First(f: Format): nat { if f.Png? then 8 else 12 }

  /** Bytes of a chunk besides its data and padding. */
  function Frame(f: Format): nat { if f.Png? then 12 else 8 }

  predicate Signed(f: Format, body: Bytes) {
    if f.Png? then |body| >= 8 && body[..8] == PngSignature
    else |body| >= 12 && body[..4] == Riff && body[8..12] == WebPName
  }

  function TypeAt(f: Format, body: Bytes, offset: nat): (t: Bytes)
    requires offset + Frame(f) <= |body|
    ensures |t| == 4
  {
    if f.Png? then body[offset + 4..offset + 8] else body[offset..offset + 4]
  }

  function LengthAt(f: Format, body: Bytes, offset: nat): nat
    requires offset + Frame(f) <= |body|
  {
    if f.Png? then BigEndian(body[offset..offset + 4]) else LittleEndian(body[offset + 4..offset + 8])
  }

  function EndOf(f: Format, body: Bytes, offset: nat): (e: nat)
    requires offset + Frame(f) <= |body|
    ensures e >= offset + Frame(f)
  {
    var length := LengthAt(f, body, offset);
    offset + Frame(f) + length + if f.WebP? then length % 2 else 0
  }

  /** A chunk starts here and ends within the body. */
  predicate ChunkAt(f: Format, body: Bytes, offset: nat) {
    offset + Frame(f) <= |body| && EndOf(f, body, offset) <= |body|
  }

  /** Each offset is a chunk, the first one at the start, each next one at the end
      of the one before. */
  predicate Chain(f: Format, body: Bytes, offsets: seq<nat>) {
    && (offsets != [] ==> offsets[0] == First(f))
    && (forall k | 0 <= k < |offsets| :: ChunkAt(f, body, offsets[k]))
    && (forall k | 0 < k < |offsets| :: offsets[k] == EndOf(f, body, offsets[k - 1]))
  }

  predicate EndsIn(f: Format, body: Bytes, offsets: seq<nat>, wanted: Bytes)
    requires Chain(f, body, offsets)
  {
    offsets != [] && TypeAt(f, body, offsets[|offsets| - 1]) == wanted
  }

  /** Some chunk on the length-linked chain has the type. */
  ghost predicate HasChunk(f: Format, body: Bytes, wanted: Bytes) {
    Signed(f, body) && exists offsets :: Chain(f, body, offsets) && EndsIn(f, body, offsets, wanted)
  }

  /** There is only one chain: of two, one begins the other. */
  lemma {:induction false} ChainsAgree(f: Format, body: Bytes, a: seq<nat>, b: seq<nat>, k: nat)
    requires Chain(f, body, a) && Chain(f, body, b) && k < |a| && k < |b|
    ensures a[k] == b[k]
    decreases k
  {
    if k > 0 {
      ChainsAgree(f, body, a, b, k - 1);
    }
  }

  /** Where a chain leads. */
  function Next(f: Format, body: Bytes, offsets: seq<nat>): nat
    requires Chain(f, body, offsets)
  {
    if offsets == [] then First(f) else EndOf(f, body, offsets[|offsets| - 1])
  }

  lemma LongerChainGoesOn(f: Format, body: Bytes, seen: seq<nat>, offsets: seq<nat>)
    requires Chain(f, body, seen) && Chain(f, body, offsets) && |offsets| > |seen|
    ensures ChunkAt(f, body, Next(f, body, seen))
  {
    if seen != [] {
      ChainsAgree(f, body, offsets, seen, |seen| - 1);
    }
    assert offsets[|seen|] == Next(f, body, seen);
  }

  /** The walk so far: `seen` leads to `offset` without the wanted type. */
  ghost predicate Walked(f: Format, body: Bytes, seen: seq<nat>, offset: nat, wanted: Bytes) {
    && Chain(f, body, seen) && offset == Next(f, body, seen)
    && forall k | 0 <= k < |seen| :: TypeAt(f, body, seen[k]) != wanted
  }

  /** After a chain that cannot go on there is nothing more to find. */
  lemma NothingBeyond(f: Format, body: Bytes, seen: seq<nat>, offset: nat, wanted: Bytes)
    requires Walked(f, body, seen, offset, wanted) && !ChunkAt(f, body, offset)
    ensures !HasChunk(f, body, wanted)
  {
    forall offsets | Chain(f, body, offsets) ensures !EndsIn(f, body, offsets, wanted) {
      if |offsets| > |seen| {
        LongerChainGoesOn(f, body, seen, offsets);
        assert false;
      } else if offsets != [] {
        ChainsAgree(f, body, offsets, seen, |offsets| - 1);
      }
    }
  }

  lemma FoundHere(f: Format, body: Bytes, seen: seq<nat>, offset: nat, wanted: Bytes)
    requires Signed(f, body) && Walked(f, body, seen, offset, wanted) && ChunkAt(f, body, offset)
    ensures Chain(f, body, seen + [offset])
    ensures TypeAt(f, body, offset) == wanted ==> HasChunk(f, body, wanted)
  {
    var longer := seen + [offset];
    assert Chain(f, body, longer);
    assert TypeAt(f, body, offset) == wanted ==> EndsIn(f, body, longer, wanted);
  }

  method PngHasChunk(body: Bytes, wanted: Bytes) returns (found: bool)
    ensures found <==> |wanted| == 4 && HasChunk(Png, body, wanted)
  {
    if |wanted| != 4 || |body| < 8 || body[..8] != PngSignature {
      return false;
    }
    var offset := 8;
    ghost var seen: seq<nat> := [];
    while offset + 12 <= |body|
      invariant Walked(Png, body, seen, offset, wanted)
      decreases |body| - offset
    {
      var length := BigEndian(body[offset..offset + 4]);
      var end := offset + 12 + length;
      if end > |body| {
        NothingBeyond(Png, body, seen, offset, wanted);
        return false;
      }
      FoundHere(Png, body, seen, offset, wanted);
      if body[offset + 4..offset + 8] == wanted {
        return true;
      }
      seen := seen + [offset];
      offset := end;
    }
    NothingBeyond(Png, body, seen, offset, wanted);
    return false;
  }

  method WebPHasChunk(body: Bytes, wanted: Bytes) returns (found: bool)
    ensures found <==> |wanted| == 4 && HasChunk(WebP, body, wanted)
  {
    if |wanted| != 4 || |body| < 12 || body[..4] != Riff || body[8..12] != WebPName {
      return false;
    }
    var offset := 12;
    ghost var seen: seq<nat> := [];
    while offset + 8 <= |body|
      invariant Walked(WebP, body, seen, offset, wanted)
      decreases |body| - offset
    {
      var length := LittleEndian(body[offset + 4..offset + 8]);
      var padded := length + length % 2;
      var end := offset + 8 + padded;
      if end > |body| {
        NothingBeyond(WebP, body, seen, offset, wanted);
        return false;
      }
      FoundHere(WebP, body, seen, offset, wanted);
      if body[offset..offset + 4] == wanted {
        return true;
      }
      seen := seen + [offset];
      offset := end;
    }
    NothingBeyond(WebP, body, seen, offset, wanted);
    return false;
  }

  /** A PNG chunk spelled out: the length is big-endian and counts the data alone, the
      type follows it, and a checksum of four bytes ends the chunk. */
  lemma PngChunkSpelled(length: Bytes, name: Bytes, data: Bytes, check: Bytes, after: Bytes)
    requires |length| == |name| == |check| == 4
    requires |data| == (length[0] as nat) * 0x100_0000 + (length[1] as nat) * 0x1_0000
                       + (length[2] as nat) * 0x100 + length[3] as nat
    ensures var body := [0x89, 0x50, 0x4E, 0x47, 0x0D, 0x0A, 0x1A, 0x0A] + length + name + data + check + after;
            HasChunk(Png, body, name)
  {
    var header: Bytes := [0x89, 0x50, 0x4E, 0x47, 0x0D, 0x0A, 0x1A, 0x0A];
    var body := header + length + name + data + check + after;
    assert body[8..12] == length && body[12..16] == name && body[..8] == header;
    assert Chain(Png, body, [8]) && EndsIn(Png, body, [8], name);
  }

  /** A WebP chunk spelled out: the type comes first, the length is little-endian, and odd
      data has one byte of padding. */
  lemma WebPChunkSpelled(size: Bytes, name: Bytes, length: Bytes, data: Bytes, pad: Bytes, after: Bytes)
    requires |size| == |name| == |length| == 4 && |pad| == |data| % 2
    requires |data| == length[0] as nat + (length[1] as nat) * 0x100
                       + (length[2] as nat) * 0x1_0000 + (length[3] as nat) * 0x100_0000
    ensures var body := [0x52, 0x49, 0x46, 0x46] + size + [0x57, 0x45, 0x42, 0x50] + name + length + data + pad + after;
            HasChunk(WebP, body, name)
  {
    var riff: Bytes, webp: Bytes := [0x52, 0x49, 0x46, 0x46], [0x57, 0x45, 0x42, 0x50];
    var body := riff + size + webp + name + length + data + pad + after;
    assert body[..4] == riff && body[8..12] == webp && body[12..16] == name && body[16..20] == length;
    assert Chain(WebP, body, [12]) && EndsIn(WebP, body, [12], name);
  }

  // ----- Encoding and the round trip -----

  /** `check` is the PNG checksum; RIFF chunks have none. */
  datatype Chunk = Chunk(name: Bytes, data: Bytes, check: Bytes)

  predicate Encodable(c: Chunk) { |c.name| == 4 && |c.data| < 0x1_0000_0000 && |c.check| == 4 }

  function EncodeChunk(f: Format, c: Chunk): Bytes
    requires Encodable(c)
  {
    if f.Png? then BigBytes(|c.data|) + c.name + c.data + c.check
    else c.name + LittleBytes(|c.data|) + c.data + if |c.data| % 2 == 1 then [0] else []
  }

  predicate AllEncodable(chunks: seq<Chunk>) {
    forall i | 0 <= i < |chunks| :: Encodable(chunks[i])
  }

  function EncodeChunks(f: Format, chunks: seq<Chunk>): Bytes
    requires AllEncodable(chunks)
  {
    if chunks == [] then [] else EncodeChunks(f, chunks[..|chunks| - 1]) + EncodeChunk(f, chunks[|chunks| - 1])
  }

  /** A whole file; the RIFF size field may hold anything. */
  function EncodeFile(f: Format, size: Bytes, chunks: seq<Chunk>): (body: Bytes)
    requires AllEncodable(chunks) && |size| == 4
    ensures |body| == First(f) + |EncodeChunks(f, chunks)|
  {
    (if f.Png? then PngSignature else Riff + size + WebPName) + EncodeChunks(f, chunks)
  }

  lemma Middle(before: Bytes, middle: Bytes, after: Bytes)
    ensures (before + middle + after)[|before|..|before| + |middle|] == middle
  {
  }

  /** One encoded chunk in the middle of a body is found there. */
  lemma EncodedChunkAt(f: Format, before: Bytes, c: Chunk, after: Bytes, body: Bytes)
    requires Encodable(c) && body == before + EncodeChunk(f, c) + after
    ensures ChunkAt(f, body, |before|) && TypeAt(f, body, |before|) == c.name
    ensures EndOf(f, body, |before|) == |before| + |EncodeChunk(f, c)|
  {
    NumbersRoundTrip(|c.data|);
    if f.Png? {
      var number, rest := BigBytes(|c.data|), c.data + c.check + after;
      assert body == before + number + (c.name + rest);
      Middle(before, number, c.name + rest);
      assert body == (before + number) + c.name + rest;
      Middle(before + number, c.name, rest);
    } else {
      var number, rest := LittleBytes(|c.data|), c.data + (if |c.data| % 2 == 1 then [0] else []) + after;
      assert body == before + c.name + (number + rest);
      Middle(before, c.name, number + rest);
      assert body == (before + c.name) + number + rest;
      Middle(before + c.name, number, rest);
    }
  }

  /** The offsets at which the chunks of an encoded file stand. */
  function Offsets(f: Format, chunks: seq<Chunk>): (r: seq<nat>)
    requires AllEncodable(chunks)
    ensures |r| == |chunks|
  {
    if chunks == [] then []
    else Offsets(f, chunks[..|chunks| - 1]) + [First(f) + |EncodeChunks(f, chunks[..|chunks| - 1])|]
  }

  /** The chain of chunks of these names, as far as `next`. */
  ghost predicate Named(f: Format, body: Bytes, offsets: seq<nat>, chunks: seq<Chunk>, next: nat) {
    && Chain(f, body, offsets) && Next(f, body, offsets) == next && |offsets| == |chunks|
    && forall k | 0 <= k < |chunks| :: TypeAt(f, body, offsets[k]) == chunks[k].name
  }

  lemma NamedOneMore(f: Format, body: Bytes, offsets: seq<nat>, chunks: seq<Chunk>, next: nat, c: Chunk)
    requires Named(f, body, offsets, chunks, next) && ChunkAt(f, body, next) && TypeAt(f, body, next) == c.name
    ensures Named(f, body, offsets + [next], chunks + [c], EndOf(f, body, next))
  {
  }

  lemma Regrouped(header: Bytes, earlier: Bytes, chunk: Bytes, after: Bytes)
    ensures header + (earlier + chunk) + after == header + earlier + (chunk + after)
    ensures header + earlier + (chunk + after) == (header + earlier) + chunk + after
  {
  }

  lemma OneMoreEncoded(f: Format, before: Bytes, offsets: seq<nat>, chunks: seq<Chunk>, c: Chunk, after: Bytes,
                       body: Bytes)
    requires Encodable(c) && body == before + EncodeChunk(f, c) + after && Named(f, body, offsets, chunks, |before|)
    ensures Named(f, body, offsets + [|before|], chunks + [c], |before| + |EncodeChunk(f, c)|)
  {
    EncodedChunkAt(f, before, c, after, body);
    NamedOneMore(f, body, offsets, chunks, |before|, c);
  }

  lemma LastEncoded(f: Format, rest: seq<Chunk>, c: Chunk)
    requires AllEncodable(rest) && Encodable(c)
    ensures AllEncodable(rest + [c]) && EncodeChunks(f, rest + [c]) == EncodeChunks(f, rest) + EncodeChunk(f, c)
    ensures Offsets(f, rest + [c]) == Offsets(f, rest) + [First(f) + |EncodeChunks(f, rest)|]
  {
    assert (rest + [c])[..|rest|] == rest;
  }

  predicate Follows(f: Format, header: Bytes, chunks: seq<Chunk>, after: Bytes, body: Bytes)
    requires AllEncodable(chunks)
  {
    |header| == First(f) && body == header + EncodeChunks(f, chunks) + after
  }

  lemma FollowsSplit(f: Format, header: Bytes, rest: seq<Chunk>, c: Chunk, after: Bytes, body: Bytes)
    requires AllEncodable(rest) && Encodable(c) && AllEncodable(rest + [c])
    requires Follows(f, header, rest + [c], after, body)
    ensures Follows(f, header, rest, EncodeChunk(f, c) + after, body)
    ensures body == (header + EncodeChunks(f, rest)) + EncodeChunk(f, c) + after
  {
    LastEncoded(f, rest, c);
    Regrouped(header, EncodeChunks(f, rest), EncodeChunk(f, c), after);
  }

  lemma EncodedNext(f: Format, header: Bytes, rest: seq<Chunk>, c: Chunk, after: Bytes, body: Bytes)
    requires AllEncodable(rest) && Encodable(c) && AllEncodable(rest + [c])
    requires Follows(f, header, rest + [c], after, body)
    requires Named(f, body, Offsets(f, rest), rest, First(f) + |EncodeChunks(f, rest)|)
    ensures Named(f, body, Offsets(f, rest + [c]), rest + [c], First(f) + |EncodeChunks(f, rest + [c])|)
  {
    FollowsSplit(f, header, rest, c, after, body);
    OneMoreEncoded(f, header + EncodeChunks(f, rest), Offsets(f, rest), rest, c, after, body);
    LastEncoded(f, rest, c);
  }

  /** The chain of an encoded file, whatever follows it. */
  lemma {:induction false} EncodedChain(f: Format, header: Bytes, chunks: seq<Chunk>, after: Bytes, body: Bytes)
    requires AllEncodable(chunks) && Follows(f, header, chunks, after, body)
    ensures Named(f, body, Offsets(f, chunks), chunks, First(f) + |EncodeChunks(f, chunks)|)
    decreases |chunks|
  {
    if chunks != [] {
      var rest, c := chunks[..|chunks| - 1], chunks[|chunks| - 1];
      assert chunks == rest + [c];
      FollowsSplit(f, header, rest, c, after, body);
      EncodedChain(f, header, rest, EncodeChunk(f, c) + after, body);
      EncodedNext(f, header, rest, c, after, body);
    }
  }

  lemma PrefixChain(f: Format, body: Bytes, offsets: seq<nat>, k: nat)
    requires Chain(f, body, offsets) && k < |offsets|
    ensures Chain(f, body, offsets[..k + 1]) && EndsIn(f, body, offsets[..k + 1], TypeAt(f, body, offsets[k]))
  {
  }

  lemma NamedHasExactly(f: Format, body: Bytes, offsets: seq<nat>, chunks: seq<Chunk>, wanted: Bytes)
    requires Signed(f, body) && Named(f, body, offsets, chunks, |body|)
    ensures HasChunk(f, body, wanted) <==> exists c | c in chunks :: c.name == wanted
  {
    if c :| c in chunks && c.name == wanted {
      var k :| 0 <= k < |chunks| && chunks[k] == c;
      PrefixChain(f, body, offsets, k);
    } else {
      NothingBeyond(f, body, offsets, |body|, wanted);
    }
  }

  /** For every list of chunks, the encoded file has a chunk of a type exactly when
      the list does. */
  lemma EncodedFileHasExactly(f: Format, size: Bytes, chunks: seq<Chunk>, wanted: Bytes)
    requires AllEncodable(chunks) && |size| == 4
    ensures HasChunk(f, EncodeFile(f, size, chunks), wanted) <==> exists c | c in chunks :: c.name == wanted
  {
    var header := if f.Png? then PngSignature else Riff + size + WebPName;
    var body := EncodeFile(f, size, chunks);
    assert body == header + EncodeChunks(f, chunks) + [];
    EncodedChain(f, header, chunks, [], body);
    FileIsSigned(f, size, EncodeChunks(f, chunks));
    NamedHasExactly(f, body, Offsets(f, chunks), chunks, wanted);
  }

  lemma FileIsSigned(f: Format, size: Bytes, rest: Bytes)
    requires |size| == 4
    ensures Signed(f, (if f.Png? then PngSignature else Riff + size + WebPName) + rest)
  {
    if f.WebP? {
      assert Riff + size + WebPName + rest == (Riff + size) + WebPName + rest;
      Middle(Riff + size, WebPName, rest);
    }
  }
}
