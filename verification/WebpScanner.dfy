/** The WebP scanner's two chunk loops, and the proof that they accept exactly the files of module Webp. */
module WebpScanner {
  import opened Bytes
  import opened ChunkLists
  import opened Webp

  /** The chunk that starts at `offset`. */
  method ReadChunk(s: seq<byte>, offset: nat) returns (c: Option<Chunk>)
    requires offset + 8 <= |s|
    ensures c == FirstChunk(s[offset..])
  {
    ghost var tail := s[offset..];
    assert tail[4..8] == s[offset + 4..offset + 8];
    var chunkSize := Le32(s[offset + 4..offset + 8]);
    var dataStart := offset + 8;
    var dataEnd := dataStart + chunkSize;
    var paddedEnd := dataEnd + chunkSize % 2;
    if dataEnd > |s| || paddedEnd > |s| {
      return None;
    }
    assert tail[..4] == s[offset..offset + 4];
    assert tail[8..8 + chunkSize] == s[dataStart..dataEnd];
    assert tail[8 + chunkSize..8 + chunkSize + chunkSize % 2] == s[dataEnd..paddedEnd];
    return Some(Chunk(s[offset..offset + 4], s[dataStart..dataEnd], s[dataEnd..paddedEnd]));
  }

  // ---------- animation frames ----------

  lemma NotAFrame(payload: seq<byte>)
    requires |payload| >= 24 ==>
      Chunks(payload[16..]).None? ||
      payload[15] >= 4 ||
      !SoleBitstream(Chunks(payload[16..]).value, DeclaredDimensions(payload))
    ensures NoFrame(payload)
  {
    forall d | IsFrame(payload, d)
      ensures false
    {
      var cs :| FrameHolds(payload, cs, d);
      TilesMeansChunks(payload[16..], cs);
    }
  }

  /** The bitstream seen so far, as the loop variable keeps it. */
  ghost predicate Remembers(seen: Option<Dimensions>, cs: seq<Chunk>) {
    if seen.None? then BitstreamsOf(cs) == [] else SoleBitstream(cs, seen.value)
  }

  /** A second bitstream, or one that cannot be read, spoils every list that begins with it. */
  lemma SpoiledBy(cs: seq<Chunk>, c: Chunk, seen: Option<Dimensions>)
    requires Remembers(seen, cs) && c.Bitstream()
    requires seen.Some? || BitstreamDimensions(c.kind, c.payload).None?
    ensures forall rest, d :: !SoleBitstream(cs + [c] + rest, d)
  {
    forall rest, d
      ensures !SoleBitstream(cs + [c] + rest, d)
    {
      BitstreamsAppend(cs, [c]);
      BitstreamsAppend(cs + [c], rest);
    }
  }

  lemma RememberExtends(seen: Option<Dimensions>, cs: seq<Chunk>, c: Chunk)
    requires Remembers(seen, cs)
    ensures !c.Bitstream() ==> Remembers(seen, cs + [c])
    ensures var dims := BitstreamDimensions(c.kind, c.payload);
            c.Bitstream() && seen.None? && dims.Some? ==> Remembers(dims, cs + [c])
  {
    BitstreamsAppend(cs, [c]);
    assert BitstreamsOf([c]) == if c.Bitstream() then [c] else [];
  }

  lemma SpoiledFrame(payload: seq<byte>, cs: seq<Chunk>, c: Chunk, seen: Option<Dimensions>, tail: seq<byte>)
    requires |payload| >= 24 && ReadSoFar(Chunks(payload[16..]), cs + [c], Chunks(tail))
    requires Remembers(seen, cs) && c.Bitstream()
    requires seen.Some? || BitstreamDimensions(c.kind, c.payload).None?
    ensures NoFrame(payload)
  {
    SpoiledBy(cs, c, seen);
    NotAFrame(payload);
  }

  method ValidateFrame(payload: seq<byte>) returns (r: Option<Dimensions>)
    ensures r.Some? ==> IsFrame(payload, r.value)
    ensures r.None? ==> NoFrame(payload)
  {
    if |payload| < 24 || payload[15] >= 4 {
      NotAFrame(payload);
      return None;
    }
    var declared := DeclaredDimensions(payload);
    var body := payload[16..];
    ghost var cs;
    r, cs := SoleBitstreamOf(payload, body);
    if r.Some? {
      if r.value != declared {
        NotAFrame(payload);
        return None;
      }
      TilesMeansChunks(body, cs);
      assert FrameHolds(payload, cs, declared);
    }
  }

  /** The loop over the chunks of a frame. */
  method SoleBitstreamOf(payload: seq<byte>, body: seq<byte>) returns (seen: Option<Dimensions>, ghost cs: seq<Chunk>)
    requires |payload| >= 24 && body == payload[16..]
    ensures seen.Some? ==> Chunks(body) == Some(cs) && SoleBitstream(cs, seen.value)
    ensures seen.None? ==> NoFrame(payload)
  {
    var offset := 0;
    seen, cs := None, [];
    ReadNothingYet(Chunks(body));
    assert body[0..] == body;
    while offset + 8 <= |body|
      invariant offset <= |body|
      invariant ReadSoFar(Chunks(body), cs, Chunks(body[offset..]))
      invariant Remembers(seen, cs)
    {
      var chunk := ReadChunk(body, offset);
      if chunk.None? {
        NotAFrame(payload);
        return None, [];
      }
      var c := chunk.value;
      var end := offset + c.Size();
      assert body[offset..][c.Size()..] == body[end..];
      ReadOneMore(Chunks(body), cs, c, Chunks(body[end..]));
      RememberExtends(seen, cs, c);
      if c.Bitstream() {
        var dims := BitstreamDimensions(c.kind, c.payload);
        if seen.Some? || dims.None? {
          SpoiledFrame(payload, cs, c, seen, body[end..]);
          return None, [];
        }
        seen := dims;
      }
      cs, offset := cs + [c], end;
    }
    if offset == |body| {
      ReadAll(Chunks(body), cs);
    }
    if offset != |body| || seen.None? {
      NotAFrame(payload);
      return None, [];
    }
  }

  // ---------- whole files ----------

  datatype Flags = Flags(
    canvas: Option<Dimensions>, bitstream: Option<Dimensions>, animation: bool,
    sawAnimationHeader: bool, sawAnimationFrame: bool)
  {
    ghost predicate Remember(cs: seq<Chunk>) {
      && WellOrdered(cs)
      && canvas == Canvas(cs)
      && animation == Animated(cs)
      && Remembers(bitstream, cs)
      && (sawAnimationHeader <==> Has(cs, ANIM))
      && (sawAnimationFrame <==> Has(cs, ANMF))
    }
  }

  lemma MisplacedStays(cs: seq<Chunk>, c: Chunk, rest: seq<Chunk>)
    requires !MayFollow(cs, c)
    ensures !WellOrdered(cs + [c] + rest)
  {
    var t := cs + [c] + rest;
    assert t[..|cs|] == cs && t[|cs|] == c;
    if WellOrdered(t) {
      WellOrderedAt(t, |cs|);
    }
  }

  lemma ExtendFacts(cs: seq<Chunk>, c: Chunk)
    ensures Has(cs + [c], ANIM) <==> Has(cs, ANIM) || c.kind == ANIM
    ensures Has(cs + [c], ANMF) <==> Has(cs, ANMF) || c.kind == ANMF
    ensures BitstreamsOf(cs + [c]) == BitstreamsOf(cs) + (if c.Bitstream() then [c] else [])
    ensures cs != [] ==> Canvas(cs + [c]) == Canvas(cs) && Animated(cs + [c]) == Animated(cs)
    ensures WellOrdered(cs + [c]) <==> WellOrdered(cs) && MayFollow(cs, c)
  {
    AnyExtends(cs, c, OfKind(ANIM));
    AnyExtends(cs, c, OfKind(ANMF));
    assert (cs + [c])[..|cs + [c]| - 1] == cs;
  }

  lemma CanvasRemembered(f: Flags, cs: seq<Chunk>, c: Chunk, g: Flags)
    requires f.Remember(cs) && cs == [] && c.kind == VP8X && CanvasValid(c.payload)
    requires g == f.(canvas := Canvas([c]), animation := Animated([c]))
    ensures g.Remember(cs + [c])
  {
    ExtendFacts(cs, c);
    RememberExtends(f.bitstream, cs, c);
    assert cs + [c] == [c];
  }

  /** The branches of one round of the outer loop; None when the chunk may not stand here. */
  method Judge(f: Flags, c: Chunk, first: bool, ghost cs: seq<Chunk>) returns (r: Option<Flags>)
    requires f.Remember(cs) && (first <==> cs == [])
    ensures r.None? <==> !MayFollow(cs, c)
    ensures r.Some? ==> r.value.Remember(cs + [c])
  {
    if c.kind == VP8X {
      r := JudgeCanvas(f, c, first, cs);
      if r.Some? { CanvasRemembered(f, cs, c, r.value); }
      return;
    }
    ExtendFacts(cs, c);
    RememberExtends(f.bitstream, cs, c);
    if c.Bitstream() {
      var dims := BitstreamDimensions(c.kind, c.payload);
      r := if f.bitstream.Some? || dims.None? then None else Some(f.(bitstream := dims));
    } else if c.kind == ANIM {
      r := if |c.payload| != 6 || f.sawAnimationHeader then None else Some(f.(sawAnimationHeader := true));
    } else if c.kind == ANMF {
      var ok := JudgeFrame(f, c.payload);
      r := if ok then Some(f.(sawAnimationFrame := true)) else None;
    } else {
      r := Some(f);
    }
  }

  method JudgeCanvas(f: Flags, c: Chunk, first: bool, ghost cs: seq<Chunk>) returns (r: Option<Flags>)
    requires f.Remember(cs) && (first <==> cs == []) && c.kind == VP8X
    ensures r.None? <==> !(cs == [] && CanvasValid(c.payload))
    ensures r.Some? ==> r.value == f.(canvas := Canvas([c]), animation := Animated([c]))
  {
    var p := c.payload;
    if !first || f.canvas.Some? || |p| != 10 {
      return None;
    }
    if p[1..4] != [0, 0, 0] || p[0] / 64 != 0 || p[0] % 2 != 0 {
      return None;
    }
    var canvas := Dimensions(Le24(p[4..7]) + 1, Le24(p[7..10]) + 1);
    return Some(f.(canvas := Some(canvas), animation := p[0] / 2 % 2 == 1));
  }

  method JudgeFrame(f: Flags, payload: Data) returns (ok: bool)
    ensures ok <==>
      && f.sawAnimationHeader && f.canvas.Some?
      && exists d :: IsFrame(payload, d) && InsideCanvas(payload, d, f.canvas.value)
  {
    if !f.sawAnimationHeader {
      return false;
    }
    var frame := ValidateFrame(payload);
    if frame.None? || f.canvas.None? {
      return false;
    }
    FrameIsUnique(payload, frame.value);
    return InsideCanvas(payload, frame.value, f.canvas.value);
  }

  lemma FrameIsUnique(payload: seq<byte>, d: Dimensions)
    requires IsFrame(payload, d)
    ensures |payload| >= 24 && forall e :: IsFrame(payload, e) <==> e == d
  {
    var cs :| FrameHolds(payload, cs, d);
    forall e | IsFrame(payload, e)
      ensures e == d
    {
      var fs :| FrameHolds(payload, fs, e);
    }
  }

  lemma NotAnImage(file: seq<byte>)
    requires |file| >= 12 && Chunks(file[12..]).Some? ==>
      !WellOrdered(Chunks(file[12..]).value) || ShowsNothing(Chunks(file[12..]).value)
    ensures NoImage(file)
  {
    forall d | HasImage(file, d)
      ensures false
    {
      var cs :| IsWebp(file, cs, d);
      ChunksOfPrint(cs);
    }
  }

  method ValidateWebp(file: seq<byte>) returns (r: Option<Dimensions>)
    ensures r.Some? ==> HasImage(file, r.value)
    ensures r.None? ==> NoImage(file)
  {
    var headed := CheckRiff(file);
    if !headed {
      return None;
    }
    var flags, cs := ScanChunks(file);
    if flags.None? {
      return None;
    }
    r := Conclude(flags.value, cs);
    ConcludeFile(file, cs, r);
  }

  lemma NothingRemembered()
    ensures Flags(None, None, false, false, false).Remember([])
  {
  }

  /** No chunk starts where the chunks read so far end. */
  lemma Unreadable(file: seq<byte>, cs: seq<Chunk>, offset: nat)
    requires 12 <= offset < |file| && ReadSoFar(Chunks(file[12..]), cs, Chunks(file[offset..]))
    requires FirstChunk(file[offset..]).None?
    ensures NoImage(file)
  {
    assert Chunks(file[12..]).None?;
    NotAnImage(file);
  }

  /** The loop over the chunks behind the file header. */
  method ScanChunks(file: seq<byte>) returns (r: Option<Flags>, ghost cs: seq<Chunk>)
    requires HasHeader(file)
    ensures r.Some? ==> Chunks(file[12..]) == Some(cs) && r.value.Remember(cs)
    ensures r.None? ==> NoImage(file)
  {
    ghost var body := file[12..];
    var offset, flags := 12, Flags(None, None, false, false, false);
    cs := [];
    ReadNothingYet(Chunks(body));
    NothingRemembered();
    while offset + 8 <= |file|
      invariant 12 <= offset <= |file|
      invariant ReadSoFar(Chunks(body), cs, Chunks(file[offset..]))
      invariant flags.Remember(cs)
      invariant offset == 12 <==> cs == []
    {
      var chunk := ReadChunk(file, offset);
      if chunk.None? {
        Unreadable(file, cs, offset);
        return None, [];
      }
      var c := chunk.value;
      var end := offset + c.Size();
      assert file[offset..][c.Size()..] == file[end..];
      ReadOneMore(Chunks(body), cs, c, Chunks(file[end..]));
      var next := Judge(flags, c, offset == 12, cs);
      if next.None? {
        RejectAfter(file, cs, c, file[end..]);
        return None, [];
      }
      flags, cs, offset := next.value, cs + [c], end;
    }
    if offset != |file| {
      Unreadable(file, cs, offset);
      return None, [];
    }
    ReadAll(Chunks(body), cs);
    return Some(flags), cs;
  }

  ghost predicate HasHeader(file: seq<byte>) {
    |file| >= 20 && file[..4] == RIFF && file[8..12] == WEBP && Le32(file[4..8]) + 8 == |file|
  }

  method CheckRiff(file: seq<byte>) returns (ok: bool)
    ensures ok <==> HasHeader(file)
    ensures !ok ==> NoImage(file)
  {
    ok := true;
    if |file| < 20 || file[..4] != RIFF || file[8..12] != WEBP {
      ok := false;
    } else {
      var riffSize := Le32(file[4..8]);
      ok := riffSize + 8 == |file|;
    }
    HeaderIsNecessary(file);
  }

  lemma HeaderBytes(body: seq<byte>)
    requires |body| + 4 < U32
    ensures var file := Headed(body);
            file[..4] == RIFF && file[4..8] == PutLe32(|body| + 4) && file[8..12] == WEBP
  {
    Quarters(RIFF, PutLe32(|body| + 4), WEBP, body);
  }

  lemma Quarters(a: Kind, b: Kind, c: Kind, d: seq<byte>)
    ensures var s := a + b + c + d;
            s[..4] == a && s[4..8] == b && s[8..12] == c && s[12..] == d
  {
  }

  lemma HeaderIsNecessary(file: seq<byte>)
    ensures !HasHeader(file) ==> NoImage(file)
  {
    forall d | HasImage(file, d)
      ensures HasHeader(file)
    {
      var cs :| IsWebp(file, cs, d);
      assert cs != [];
      HeaderBytes(Print(cs));
    }
  }

  /** The checks behind the loop. */
  method Conclude(f: Flags, ghost cs: seq<Chunk>) returns (r: Option<Dimensions>)
    requires f.Remember(cs)
    ensures r.Some? ==> Shows(cs, r.value)
    ensures r.None? ==> ShowsNothing(cs)
  {
    if f.animation {
      if f.bitstream.Some? || !(f.sawAnimationHeader && f.sawAnimationFrame) {
        return None;
      }
      return f.canvas;
    }
    if f.sawAnimationHeader || f.sawAnimationFrame || f.bitstream.None? {
      return None;
    }
    if f.canvas.Some? && f.canvas != f.bitstream {
      return None;
    }
    return if f.canvas.Some? then f.canvas else f.bitstream;
  }

  lemma RejectAfter(file: seq<byte>, cs: seq<Chunk>, c: Chunk, tail: seq<byte>)
    requires |file| >= 12 && ReadSoFar(Chunks(file[12..]), cs + [c], Chunks(tail))
    requires !MayFollow(cs, c)
    ensures NoImage(file)
  {
    if Chunks(file[12..]).Some? {
      MisplacedStays(cs, c, Chunks(tail).value);
    }
    NotAnImage(file);
  }

  lemma ConcludeFile(file: seq<byte>, cs: seq<Chunk>, r: Option<Dimensions>)
    requires HasHeader(file) && Chunks(file[12..]) == Some(cs) && WellOrdered(cs)
    requires r.Some? ==> Shows(cs, r.value)
    requires r.None? ==> ShowsNothing(cs)
    ensures r.Some? ==> HasImage(file, r.value)
    ensures r.None? ==> NoImage(file)
  {
    if r.Some? {
      TilesMeansChunks(file[12..], cs);
      HeaderJoins(file);
      assert IsWebp(file, cs, r.value);
    } else {
      NotAnImage(file);
    }
  }

  lemma HeaderJoins(file: seq<byte>)
    requires HasHeader(file)
    ensures |file[12..]| + 4 < U32 && file == Headed(file[12..])
  {
    PutLe32Inverse(file[4..8]);
    assert file == file[..4] + file[4..8] + file[8..12] + file[12..];
  }
}
