/**
 The PNG container checker: a scanner over length-prefixed, checksummed chunks, and the grammar of
 the files that it accepts (sections 3.2 and 4.1 of RFC 2083).
 */
module Png {
  import opened Bytes
  import opened ChunkLists
  import opened PngScanlines

  const SIGNATURE: seq<byte> := [0x89, 0x50, 0x4E, 0x47, 0x0D, 0x0A, 0x1A, 0x0A]
  const IHDR: Kind := [0x49, 0x48, 0x44, 0x52]
  const PLTE: Kind := [0x50, 0x4C, 0x54, 0x45]
  const IDAT: Kind := [0x49, 0x44, 0x41, 0x54]
  const IEND: Kind := [0x49, 0x45, 0x4E, 0x44]

  /** The checksum and the decompressor, which the checker takes from libraries. */
  datatype Codec = Codec(crc: seq<byte> -> nat, inflate: Inflater) {
    function Checksum(content: seq<byte>): (n: nat)
      ensures n < U32
    {
      crc(content) % U32
    }
  }

  type Kind = s: seq<byte> | |s| == 4 witness [0, 0, 0, 0]

  type Data = s: seq<byte> | |s| < U32

  datatype Chunk = Chunk(kind: Kind, data: Data)

  // ---------- chunks as bytes ----------

  function PrintChunk(k: Codec, c: Chunk): (s: seq<byte>)
    ensures |s| == 12 + |c.data|
  {
    PutBe32(|c.data|) + c.kind + c.data + PutBe32(k.Checksum(c.kind + c.data))
  }

  function Print(k: Codec, cs: seq<Chunk>): seq<byte> {
    if cs == [] then [] else PrintChunk(k, cs[0]) + Print(k, cs[1..])
  }

  /** The chunk at the front of s, if it is complete and its checksum is right. */
  function FirstChunk(k: Codec, s: seq<byte>): (r: Option<Chunk>)
    ensures r.Some? ==> |s| >= 12 + |r.value.data|
  {
    if |s| < 12 then None
    else
      var n := Be32(s[..4]);
      if 12 + n > |s| then None
      else
        var c := Chunk(s[4..8], s[8..8 + n]);
        if k.Checksum(c.kind + c.data) != Be32(s[8 + n..12 + n]) then None else Some(c)
  }

  function Chunks(k: Codec, s: seq<byte>): Option<seq<Chunk>> {
    if s == [] then Some([])
    else
      var c := FirstChunk(k, s);
      if c.None? then None
      else Prepend([c.value], Chunks(k, s[12 + |c.value.data|..]))
  }

  lemma FirstChunkOfPrint(k: Codec, c: Chunk, rest: seq<byte>)
    ensures FirstChunk(k, PrintChunk(k, c) + rest) == Some(c)
    ensures (PrintChunk(k, c) + rest)[12 + |c.data|..] == rest
  {
    var s, n := PrintChunk(k, c) + rest, |c.data|;
    assert s[..4] == PutBe32(n);
    assert s[4..8] == c.kind;
    assert s[8..8 + n] == c.data;
    assert s[8 + n..12 + n] == PutBe32(k.Checksum(c.kind + c.data));
  }

  lemma PrintOfFirstChunk(k: Codec, s: seq<byte>)
    requires FirstChunk(k, s).Some?
    ensures var c := FirstChunk(k, s).value; s == PrintChunk(k, c) + s[12 + |c.data|..]
  {
    var n := Be32(s[..4]);
    PutBe32Inverse(s[..4]);
    PutBe32Inverse(s[8 + n..12 + n]);
    assert s == s[..4] + s[4..8] + s[8..8 + n] + s[8 + n..12 + n] + s[12 + n..];
  }

  /** Reading undoes printing, so a byte string is the print of at most one list of chunks. */
  lemma {:induction false} ChunksOfPrint(k: Codec, cs: seq<Chunk>)
    ensures Chunks(k, Print(k, cs)) == Some(cs)
  {
    if cs != [] {
      FirstChunkOfPrint(k, cs[0], Print(k, cs[1..]));
      ChunksOfPrint(k, cs[1..]);
      assert cs == [cs[0]] + cs[1..];
    }
  }

  lemma {:induction false} PrintOfChunks(k: Codec, s: seq<byte>)
    ensures Chunks(k, s).Some? ==> Print(k, Chunks(k, s).value) == s
    decreases |s|
  {
    if s != [] && FirstChunk(k, s).Some? {
      var c := FirstChunk(k, s).value;
      PrintOfFirstChunk(k, s);
      PrintOfChunks(k, s[12 + |c.data|..]);
      if Chunks(k, s).Some? {
        assert Chunks(k, s).value[1..] == Chunks(k, s[12 + |c.data|..]).value;
      }
    }
  }

  lemma PrintIsInjective(k: Codec, a: seq<Chunk>, b: seq<Chunk>)
    requires Print(k, a) == Print(k, b)
    ensures a == b
  {
    ChunksOfPrint(k, a);
    ChunksOfPrint(k, b);
  }

  // ---------- which lists of chunks are images ----------

  datatype Header =
    Header(width: nat, height: nat, depth: byte, color: byte, compression: byte, filter: byte, interlace: byte)
  {
    predicate Valid() {
      && width > 0 && height > 0
      && (match color
          case 0 => depth in {1, 2, 4, 8, 16}
          case 3 => depth in {1, 2, 4, 8}
          case 2 => depth in {8, 16}
          case 4 => depth in {8, 16}
          case 6 => depth in {8, 16}
          case _ => false)
      && compression == 0 && filter == 0 && interlace in {0, 1}
    }

    function BitsPerPixel(): nat {
      (match color case 2 => 3 case 4 => 2 case 6 => 4 case _ => 1) * depth as int
    }

    /** A palette has whole entries, no more than 256 and no more than the depth can address. */
    predicate AllowsPalette(size: nat) {
      && 0 < size <= 768 && size % 3 == 0
      && color != 0 && color != 4
      && (color == 3 ==> size / 3 <= PaletteLimit(depth))
    }
  }

  function PaletteLimit(depth: byte): nat {
    match depth case 1 => 2 case 2 => 4 case 4 => 16 case _ => 256
  }

  function ReadHeader(data: seq<byte>): Header
    requires |data| == 13
  {
    Header(Be32(data[..4]), Be32(data[4..8]), data[8], data[9], data[10], data[11], data[12])
  }

  /** The thirteen bytes of a header (section 4.1.1 of RFC 2083). */
  function PutHeader(h: Header): (data: seq<byte>)
    requires h.width < U32 && h.height < U32
    ensures |data| == 13
  {
    PutBe32(h.width) + PutBe32(h.height) + [h.depth, h.color, h.compression, h.filter, h.interlace]
  }

  /** Each field is read from where it is written. */
  lemma ReadOfPutHeader(h: Header)
    requires h.width < U32 && h.height < U32
    ensures ReadHeader(PutHeader(h)) == h
  {
    var data := PutHeader(h);
    assert data[..4] == PutBe32(h.width) && data[4..8] == PutBe32(h.height);
  }

  lemma PutOfReadHeader(data: seq<byte>)
    requires |data| == 13
    ensures ReadHeader(data).width < U32 && ReadHeader(data).height < U32 && PutHeader(ReadHeader(data)) == data
  {
    PutBe32Inverse(data[..4]);
    PutBe32Inverse(data[4..8]);
  }

  predicate Critical(kind: Kind) {
    0x41 <= kind[0] <= 0x5A
  }

  predicate StartsWithHeader(cs: seq<Chunk>) {
    |cs| > 0 && cs[0].kind == IHDR && |cs[0].data| == 13 && ReadHeader(cs[0].data).Valid()
  }

  function HeaderOf(cs: seq<Chunk>): Header
    requires StartsWithHeader(cs)
  {
    ReadHeader(cs[0].data)
  }

  function OfKind(kind: Kind): Chunk -> bool {
    (c: Chunk) => c.kind == kind
  }

  predicate Has(cs: seq<Chunk>, kind: Kind) {
    Any(cs, OfKind(kind))
  }

  /** Some image-data chunk is already followed by a chunk of another kind. */
  ghost predicate ImageDataEnded(cs: seq<Chunk>) {
    exists i, j :: 0 <= i < j < |cs| && cs[i].kind == IDAT && cs[j].kind != IDAT
  }

  /** Chunk c may follow the chunks cs, which do not end the image. */
  ghost predicate MayFollow(cs: seq<Chunk>, c: Chunk)
    requires StartsWithHeader(cs)
  {
    if c.kind == PLTE then
      !Has(cs, PLTE) && !Has(cs, IDAT) && HeaderOf(cs).AllowsPalette(|c.data|)
    else if c.kind == IDAT then
      !ImageDataEnded(cs)
    else
      c.kind != IHDR && c.kind != IEND && !Critical(c.kind)
  }

  /** The chunks in front of IEND: the header first, and every later one allowed where it stands. */
  ghost predicate WellOrdered(cs: seq<Chunk>) {
    && StartsWithHeader(cs)
    && forall i :: 0 < i < |cs| ==> MayFollow(cs[..i], cs[i])
  }

  function ImageData(cs: seq<Chunk>): seq<byte> {
    if cs == [] then []
    else
      var last := cs[|cs| - 1];
      ImageData(cs[..|cs| - 1]) + (if last.kind == IDAT then last.data else [])
  }

  ghost predicate PixelsFit(k: Codec, h: Header, compressed: seq<byte>) {
    PassesCountEveryPixel(h.interlace, h.width, h.height);
    var groups := Groups(Passes(h.interlace), h.width, h.height, h.BitsPerPixel());
    DecodedSize(groups) <= MAX_DECODED_BYTES && ScanlinesFit(k.inflate, compressed, groups)
  }

  /** A whole image: well-ordered chunks with image data, closed by one empty IEND. */
  ghost predicate IsImage(k: Codec, cs: seq<Chunk>) {
    && |cs| > 1
    && cs[|cs| - 1] == Chunk(IEND, [])
    && var body := cs[..|cs| - 1];
    && WellOrdered(body)
    && Has(body, IDAT)
    && (HeaderOf(body).color == 3 ==> Has(body, PLTE))
    && PixelsFit(k, HeaderOf(body), ImageData(body))
  }

  /** The specification of the checker: the file is the signature and the print of an image. */
  ghost predicate IsPng(k: Codec, file: seq<byte>, cs: seq<Chunk>, d: Dimensions) {
    && IsImage(k, cs)
    && file == SIGNATURE + Print(k, cs)
    && d == Dimensions(HeaderOf(cs).width, HeaderOf(cs).height)
  }

  lemma ImageIsUnique(k: Codec, file: seq<byte>, a: seq<Chunk>, d: Dimensions, b: seq<Chunk>, e: Dimensions)
    requires IsPng(k, file, a, d) && IsPng(k, file, b, e)
    ensures a == b && d == e
  {
    assert file[8..] == Print(k, a) == Print(k, b);
    PrintIsInjective(k, a, b);
  }

  // ---------- consequences of the order ----------

  lemma WellOrderedPrefix(cs: seq<Chunk>, n: nat)
    requires WellOrdered(cs) && 0 < n <= |cs|
    ensures WellOrdered(cs[..n])
  {
    forall i | 0 < i < n
      ensures MayFollow(cs[..n][..i], cs[..n][i])
    {
      assert cs[..n][..i] == cs[..i];
    }
  }

  /** What an image looks like by position: nothing is out of place, whatever the scanner's flags say. */
  lemma ImageLayout(k: Codec, cs: seq<Chunk>, i: nat, j: nat)
    requires IsImage(k, cs) && i < j < |cs|
    ensures cs[j].kind != IHDR && cs[i].kind != IEND
    ensures cs[j].kind == PLTE ==> cs[i].kind != PLTE && cs[i].kind != IDAT
    ensures forall m :: i < m < j && cs[i].kind == IDAT && cs[j].kind == IDAT ==> cs[m].kind == IDAT
    ensures cs[j].kind in {PLTE, IDAT, IEND} || !Critical(cs[j].kind)
  {
    var body := cs[..|cs| - 1];
    assert cs[i] == body[i];
    NeverEnds(body, i);
    if j < |body| {
      OrderedLayout(body, i, j);
      assert cs[j] == body[j];
      forall m | i < m < j && cs[i].kind == IDAT && cs[j].kind == IDAT
        ensures cs[m].kind == IDAT
      {
        assert cs[m] == body[m];
      }
    } else {
      assert cs[j] == Chunk(IEND, []);
    }
  }

  lemma NeverEnds(body: seq<Chunk>, i: nat)
    requires WellOrdered(body) && i < |body|
    ensures body[i].kind != IEND
  {
    if i > 0 {
      assert MayFollow(body[..i], body[i]);
    }
  }

  lemma OrderedLayout(body: seq<Chunk>, i: nat, j: nat)
    requires WellOrdered(body) && i < j < |body|
    ensures body[j].kind == PLTE ==> body[i].kind != PLTE && body[i].kind != IDAT
    ensures forall m :: i < m < j && body[i].kind == IDAT && body[j].kind == IDAT ==> body[m].kind == IDAT
    ensures MayFollow(body[..j], body[j])
  {
    var before := body[..j];
    assert MayFollow(before, body[j]);
    assert before[i] == body[i];
    forall m | i < m < j && body[i].kind == IDAT && body[j].kind == IDAT
      ensures body[m].kind == IDAT
    {
      assert before[m] == body[m];
    }
  }

  // ---------- the scanner ----------

  /** A list of chunks that begins with cs and c and is an image either ends there or goes on in order. */
  lemma ImageMustContinue(k: Codec, cs: seq<Chunk>, c: Chunk, rest: seq<Chunk>)
    requires IsImage(k, cs + [c] + rest)
    ensures cs == [] ==> StartsWithHeader([c])
    ensures cs != [] ==> StartsWithHeader(cs) && WellOrdered(cs)
    ensures cs != [] && c.kind == IEND ==> rest == [] && IsImage(k, cs + [c])
    ensures cs != [] && c.kind != IEND ==> MayFollow(cs, c)
  {
    var all := cs + [c] + rest;
    var body := all[..|all| - 1];
    var n := |cs|;
    assert all[n] == c;
    if n > 0 {
      assert body[..n] == cs;
      WellOrderedPrefix(body, n);
      if n < |body| {
        assert MayFollow(body[..n], body[n]);
      } else {
        assert rest == [] && all == cs + [c];
      }
    } else {
      assert body[0] == c;
    }
  }

  ghost predicate HasImage(k: Codec, file: seq<byte>, d: Dimensions) {
    exists cs :: IsPng(k, file, cs, d)
  }

  ghost predicate NoImage(k: Codec, file: seq<byte>) {
    forall d :: !HasImage(k, file, d)
  }

  lemma NotAnImage(k: Codec, file: seq<byte>)
    requires SIGNATURE <= file
    requires Chunks(k, file[8..]).Some? ==> !IsImage(k, Chunks(k, file[8..]).value)
    ensures NoImage(k, file)
  {
    forall d | HasImage(k, file, d)
      ensures false
    {
      var cs :| IsPng(k, file, cs, d);
      assert file[8..] == Print(k, cs);
      ChunksOfPrint(k, cs);
    }
  }

  lemma EndedExtends(cs: seq<Chunk>, c: Chunk)
    ensures ImageDataEnded(cs + [c]) <==> ImageDataEnded(cs) || (Has(cs, IDAT) && c.kind != IDAT)
  {
    var t := cs + [c];
    if ImageDataEnded(cs) {
      var i, j :| 0 <= i < j < |cs| && cs[i].kind == IDAT && cs[j].kind != IDAT;
      assert t[i].kind == IDAT && t[j].kind != IDAT;
    }
    if Has(cs, IDAT) && c.kind != IDAT {
      var i :| 0 <= i < |cs| && cs[i].kind == IDAT;
      assert t[i].kind == IDAT && t[|cs|].kind != IDAT;
    }
  }

  lemma OrderExtends(cs: seq<Chunk>, c: Chunk)
    requires WellOrdered(cs) && MayFollow(cs, c)
    ensures WellOrdered(cs + [c])
  {
    var t := cs + [c];
    forall i | 0 < i < |t|
      ensures MayFollow(t[..i], t[i])
    {
      assert t[..i] == cs[..i];
    }
  }

  lemma ExtendFacts(cs: seq<Chunk>, c: Chunk)
    ensures Has(cs + [c], PLTE) <==> Has(cs, PLTE) || c.kind == PLTE
    ensures Has(cs + [c], IDAT) <==> Has(cs, IDAT) || c.kind == IDAT
    ensures ImageDataEnded(cs + [c]) <==> ImageDataEnded(cs) || (Has(cs, IDAT) && c.kind != IDAT)
    ensures ImageData(cs + [c]) == ImageData(cs) + (if c.kind == IDAT then c.data else [])
    ensures cs != [] && WellOrdered(cs) && MayFollow(cs, c) ==> WellOrdered(cs + [c])
  {
    assert (cs + [c])[..|cs + [c]| - 1] == cs;
    AnyExtends(cs, c, OfKind(PLTE));
    AnyExtends(cs, c, OfKind(IDAT));
    EndedExtends(cs, c);
    if cs != [] && WellOrdered(cs) && MayFollow(cs, c) {
      OrderExtends(cs, c);
    }
  }

  /** The scanner's variables, and the chunks that they remember. */
  datatype Flags = Flags(
    header: Option<Header>, sawImageData: bool, endedImageData: bool, sawPalette: bool, compressed: seq<byte>)
  {
    ghost predicate Remember(cs: seq<Chunk>) {
      && (header.None? <==> cs == [])
      && (header.Some? ==> WellOrdered(cs) && header.value == HeaderOf(cs))
      && (sawImageData <==> Has(cs, IDAT))
      && (endedImageData <==> ImageDataEnded(cs))
      && (sawPalette <==> Has(cs, PLTE))
      && compressed == ImageData(cs)
    }
  }

  datatype Verdict = Refuse | Continue(flags: Flags) | Close

  /** After cs, no image goes on with c. */
  ghost predicate Misplaced(cs: seq<Chunk>, c: Chunk, atEnd: bool) {
    if cs == [] then !StartsWithHeader([c])
    else
      && WellOrdered(cs)
      && if c.kind == IEND
         then !atEnd || c.data != [] || !Has(cs, IDAT) || (HeaderOf(cs).color == 3 && !Has(cs, PLTE))
         else !MayFollow(cs, c)
  }

  /** The branches of one round of the loop, taken on the flags alone. */
  method Judge(f: Flags, c: Chunk, atEnd: bool, ghost cs: seq<Chunk>) returns (v: Verdict)
    requires f.Remember(cs)
    ensures v.Refuse? ==> Misplaced(cs, c, atEnd)
    ensures v.Continue? ==> v.flags.Remember(cs + [c])
    ensures v.Close? ==> cs != [] && c == Chunk(IEND, []) && atEnd && !Misplaced(cs, c, atEnd)
  {
    ExtendFacts(cs, c);
    var flags := f;
    if flags.header.None? {
      if c.kind != IHDR || |c.data| != 13 || !ReadHeader(c.data).Valid() {
        return Refuse;
      }
      flags := flags.(header := Some(ReadHeader(c.data)));
    } else if c.kind == IHDR {
      return Refuse;
    }
    if c.kind == PLTE {
      if flags.sawImageData || flags.sawPalette || !flags.header.value.AllowsPalette(|c.data|) {
        return Refuse;
      }
      flags := flags.(sawPalette := true);
    } else if c.kind == IDAT {
      if flags.endedImageData {
        return Refuse;
      }
      flags := flags.(sawImageData := true, compressed := flags.compressed + c.data);
    } else if c.kind == IEND {
      if |c.data| != 0 || !flags.sawImageData || !atEnd || (flags.header.value.color == 3 && !flags.sawPalette) {
        return Refuse;
      }
      return Close;
    } else if flags.sawImageData {
      flags := flags.(endedImageData := true);
    }
    if c.kind != IHDR && c.kind != PLTE && c.kind != IDAT && c.kind != IEND && Critical(c.kind) {
      return Refuse;
    }
    return Continue(flags);
  }

  /**
   The scanner: it accepts exactly the prints of images, with the dimensions of the header. It
   reads one chunk per round and keeps only flags; the ghost list cs is what the flags remember.
   */
  method ValidatePng(k: Codec, file: seq<byte>) returns (r: Option<Dimensions>)
    ensures r.Some? ==> HasImage(k, file, r.value)
    ensures r.None? ==> NoImage(k, file)
  {
    if !(SIGNATURE <= file) {
      return None;
    }
    ghost var cs: seq<Chunk> := [];
    var offset, flags := 8, Flags(None, false, false, false, []);
    ReadNothingYet(Chunks(k, file[8..]));
    while true
      invariant 8 <= offset <= |file|
      invariant ReadSoFar(Chunks(k, file[8..]), cs, Chunks(k, file[offset..]))
      invariant flags.Remember(cs)
      decreases |file| - offset
    {
      var chunk := ReadChunk(k, file, offset);
      if chunk.None? {
        Reject(k, file, cs, offset);
        return None;
      }
      var c := chunk.value;
      var chunkEnd := offset + 12 + |c.data|;
      assert file[offset..][12 + |c.data|..] == file[chunkEnd..];
      ReadOneMore(Chunks(k, file[8..]), cs, c, Chunks(k, file[chunkEnd..]));
      var verdict := Judge(flags, c, chunkEnd == |file|, cs);
      match verdict {
        case Refuse =>
          RejectAfter(k, file, cs, c, chunkEnd);
          return None;
        case Close =>
          r := CheckPixels(k, flags.header.value, flags.compressed);
          assert file[chunkEnd..] == [];
          AcceptAtEnd(k, file, cs, c);
          return;
        case Continue(next) =>
          flags, cs, offset := next, cs + [c], chunkEnd;
      }
    }
  }

  /** Bounds first, then the checksum; offsets are into the whole file. */
  method ReadChunk(k: Codec, file: seq<byte>, offset: nat) returns (c: Option<Chunk>)
    requires offset <= |file|
    ensures c == FirstChunk(k, file[offset..])
  {
    ghost var tail := file[offset..];
    if offset + 12 > |file| {
      return None;
    }
    assert tail[..4] == file[offset..offset + 4];
    var length := Be32(file[offset..offset + 4]);
    var kind := file[offset + 4..offset + 8];
    var dataStart := offset + 8;
    var dataEnd := dataStart + length;
    var chunkEnd := dataEnd + 4;
    if chunkEnd > |file| {
      return None;
    }
    var data := file[dataStart..dataEnd];
    assert tail[4..8] == kind && tail[8..8 + length] == data;
    assert tail[8 + length..12 + length] == file[dataEnd..chunkEnd];
    if k.Checksum(kind + data) != Be32(file[dataEnd..chunkEnd]) {
      return None;
    }
    return Some(Chunk(kind, data));
  }

  /** The pixel check behind a complete chunk list. */
  method CheckPixels(k: Codec, h: Header, compressed: seq<byte>) returns (r: Option<Dimensions>)
    ensures r == if PixelsFit(k, h, compressed) then Some(Dimensions(h.width, h.height)) else None
  {
    var groups := ExpectedScanlines(h.width, h.height, h.BitsPerPixel(), h.interlace);
    if groups.None? {
      return None;
    }
    var ok := ValidateScanlines(k.inflate, compressed, groups.value);
    return if ok then Some(Dimensions(h.width, h.height)) else None;
  }

  /** No chunk starts here, so the bytes are not a list of chunks that goes on as an image must. */
  lemma Reject(k: Codec, file: seq<byte>, cs: seq<Chunk>, offset: nat)
    requires SIGNATURE <= file && 8 <= offset <= |file|
    requires ReadSoFar(Chunks(k, file[8..]), cs, Chunks(k, file[offset..]))
    requires FirstChunk(k, file[offset..]).None?
    requires cs == [] || WellOrdered(cs)
    ensures NoImage(k, file)
  {
    if Chunks(k, file[offset..]).Some? {
      ReadAll(Chunks(k, file[8..]), cs);
      assert IsImage(k, cs) ==> !WellOrdered(cs);
    }
    NotAnImage(k, file);
  }

  lemma RejectAfter(k: Codec, file: seq<byte>, cs: seq<Chunk>, c: Chunk, end: nat)
    requires SIGNATURE <= file && 8 <= end <= |file|
    requires ReadSoFar(Chunks(k, file[8..]), cs + [c], Chunks(k, file[end..]))
    requires Misplaced(cs, c, end == |file|)
    ensures NoImage(k, file)
  {
    if Chunks(k, file[end..]).Some? {
      var rest := Chunks(k, file[end..]).value;
      if IsImage(k, cs + [c] + rest) {
        ImageMustContinue(k, cs, c, rest);
      }
    }
    NotAnImage(k, file);
  }

  /** IEND closes the file: whether it is an image is now a question about its pixels. */
  lemma AcceptAtEnd(k: Codec, file: seq<byte>, cs: seq<Chunk>, c: Chunk)
    requires SIGNATURE <= file && ReadSoFar(Chunks(k, file[8..]), cs + [c], Some([]))
    requires WellOrdered(cs) && c == Chunk(IEND, []) && Has(cs, IDAT)
    requires HeaderOf(cs).color == 3 ==> Has(cs, PLTE)
    ensures PixelsFit(k, HeaderOf(cs), ImageData(cs))
        ==> HasImage(k, file, Dimensions(HeaderOf(cs).width, HeaderOf(cs).height))
    ensures !PixelsFit(k, HeaderOf(cs), ImageData(cs)) ==> NoImage(k, file)
  {
    var t := cs + [c];
    assert t[..|t| - 1] == cs && HeaderOf(t) == HeaderOf(cs);
    ReadAll(Chunks(k, file[8..]), t);
    PrintOfChunks(k, file[8..]);
    assert file == SIGNATURE + Print(k, t);
    if PixelsFit(k, HeaderOf(cs), ImageData(cs)) {
      assert IsPng(k, file, t, Dimensions(HeaderOf(cs).width, HeaderOf(cs).height));
    } else {
      NotAnImage(k, file);
    }
  }
}
