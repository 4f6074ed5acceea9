/**
 The WebP container checker: RIFF chunks with padding, nested once more inside animation frames,
 and the grammar of the files that it accepts (sections 2 and 3.4 of RFC 9649).
 */
module Webp {
  import opened Bytes
  import opened ChunkLists

  type Kind = s: seq<byte> | |s| == 4 witness [0, 0, 0, 0]

  type Data = s: seq<byte> | |s| < U32

  const RIFF: Kind := [0x52, 0x49, 0x46, 0x46]
  const WEBP: Kind := [0x57, 0x45, 0x42, 0x50]
  const VP8: Kind := [0x56, 0x50, 0x38, 0x20]
  const VP8L: Kind := [0x56, 0x50, 0x38, 0x4C]
  const VP8X: Kind := [0x56, 0x50, 0x38, 0x58]
  const ANIM: Kind := [0x41, 0x4E, 0x49, 0x4D]
  const ANMF: Kind := [0x41, 0x4E, 0x4D, 0x46]

  // ---------- chunks as bytes ----------

  /** An odd payload is followed by one padding byte, whose value is not checked. */
  datatype Chunk = Chunk(kind: Kind, payload: Data, pad: seq<byte>) {
    predicate Padded() {
      |pad| == |payload| % 2
    }

    function Size(): nat {
      8 + |payload| + |pad|
    }

    predicate Bitstream() {
      kind == VP8 || kind == VP8L
    }
  }

  ghost predicate AllPadded(cs: seq<Chunk>) {
    forall c <- cs :: c.Padded()
  }

  function PrintChunk(c: Chunk): (s: seq<byte>)
    ensures |s| == c.Size()
  {
    c.kind + PutLe32(|c.payload|) + c.payload + c.pad
  }

  function Print(cs: seq<Chunk>): seq<byte> {
    if cs == [] then [] else PrintChunk(cs[0]) + Print(cs[1..])
  }

  function FirstChunk(s: seq<byte>): (r: Option<Chunk>)
    ensures r.Some? ==> r.value.Padded() && r.value.Size() <= |s|
  {
    if |s| < 8 then None
    else
      var n := Le32(s[4..8]);
      if 8 + n + n % 2 > |s| then None else Some(Chunk(s[..4], s[8..8 + n], s[8 + n..8 + n + n % 2]))
  }

  function Chunks(s: seq<byte>): Option<seq<Chunk>> {
    if s == [] then Some([])
    else
      var c := FirstChunk(s);
      if c.None? then None
      else Prepend([c.value], Chunks(s[c.value.Size()..]))
  }

  lemma FirstChunkOfPrint(c: Chunk, rest: seq<byte>)
    requires c.Padded()
    ensures FirstChunk(PrintChunk(c) + rest) == Some(c)
    ensures (PrintChunk(c) + rest)[c.Size()..] == rest
  {
    var s, n := PrintChunk(c) + rest, |c.payload|;
    assert s[..4] == c.kind;
    assert s[4..8] == PutLe32(n);
    assert s[8..8 + n] == c.payload;
    assert s[8 + n..8 + n + n % 2] == c.pad;
  }

  lemma PrintOfFirstChunk(s: seq<byte>)
    requires FirstChunk(s).Some?
    ensures var c := FirstChunk(s).value; s == PrintChunk(c) + s[c.Size()..]
  {
    var n := Le32(s[4..8]);
    PutLe32Inverse(s[4..8]);
    assert s == s[..4] + s[4..8] + s[8..8 + n] + s[8 + n..8 + n + n % 2] + s[8 + n + n % 2..];
  }

  /** Reading undoes printing, so a byte string is tiled by at most one list of padded chunks. */
  lemma {:induction false} ChunksOfPrint(cs: seq<Chunk>)
    requires AllPadded(cs)
    ensures Chunks(Print(cs)) == Some(cs)
  {
    if cs != [] {
      FirstChunkOfPrint(cs[0], Print(cs[1..]));
      ChunksOfPrint(cs[1..]);
      assert Print(cs) == PrintChunk(cs[0]) + Print(cs[1..]);
      assert [cs[0]] + cs[1..] == cs;
    }
  }

  lemma {:induction false} PrintOfChunks(s: seq<byte>)
    ensures Chunks(s).Some? ==> AllPadded(Chunks(s).value) && Print(Chunks(s).value) == s
    decreases |s|
  {
    if s != [] && FirstChunk(s).Some? {
      var c := FirstChunk(s).value;
      PrintOfFirstChunk(s);
      PrintOfChunks(s[c.Size()..]);
      if Chunks(s).Some? {
        assert Chunks(s).value[1..] == Chunks(s[c.Size()..]).value;
      }
    }
  }

  ghost predicate Tiles(s: seq<byte>, cs: seq<Chunk>) {
    AllPadded(cs) && s == Print(cs)
  }

  lemma TilesMeansChunks(s: seq<byte>, cs: seq<Chunk>)
    ensures Tiles(s, cs) <==> Chunks(s) == Some(cs)
  {
    if Tiles(s, cs) {
      ChunksOfPrint(cs);
    }
    PrintOfChunks(s);
  }

  // ---------- bitstream headers ----------

  function Vp8lWidth(p: seq<byte>): (n: nat)
    requires |p| >= 5
    ensures 1 <= n <= 16384
  {
    1 + p[1] + 256 * (p[2] as int % 64)
  }

  function Vp8lHeight(p: seq<byte>): (n: nat)
    requires |p| >= 5
    ensures 1 <= n <= 16384
  {
    1 + p[2] / 64 + 4 * p[3] as int + 1024 * (p[4] as int % 16)
  }

  /** The five-byte VP8L header: signature, two 14-bit sizes less one, the alpha bit, version zero. */
  function PackVp8l(width: nat, height: nat, alpha: bool): (p: seq<byte>)
    requires 1 <= width <= 16384 && 1 <= height <= 16384
    ensures |p| == 5
  {
    var (w, h) := (width - 1, height - 1);
    [0x2F, w % 256, w / 256 + h % 4 * 64, h / 4 % 256, h / 4 / 256 + (if alpha then 16 else 0)]
  }

  lemma UnpackOfPack(width: nat, height: nat, alpha: bool)
    requires 1 <= width <= 16384 && 1 <= height <= 16384
    ensures var p := PackVp8l(width, height, alpha);
            Vp8lWidth(p) == width && Vp8lHeight(p) == height && p[4] < 0x20
  {
    var w, h := width - 1, height - 1;
    var low, q := h % 4, h / 4;
    var p := PackVp8l(width, height, alpha);
    assert p[2] as int % 64 == w / 256 && p[2] / 64 == low;
    assert p[4] as int % 16 == q / 256;
    assert q == p[3] + 256 * (q / 256);
  }

  lemma PackOfUnpack(p: seq<byte>)
    requires |p| == 5 && p[0] == 0x2F && p[4] < 0x20
    ensures p == PackVp8l(Vp8lWidth(p), Vp8lHeight(p), p[4] >= 16)
  {
    var w, h := Vp8lWidth(p) - 1, Vp8lHeight(p) - 1;
    assert w % 256 == p[1] && w / 256 == p[2] as int % 64;
    var q := p[3] + 256 * (p[4] as int % 16);
    assert h == p[2] / 64 + 4 * q;
    assert h % 4 == p[2] / 64 && h / 4 == q;
    assert q % 256 == p[3] && q / 256 == p[4] as int % 16;
  }

  function BitstreamDimensions(kind: Kind, p: seq<byte>): Option<Dimensions> {
    if kind == VP8L then
      if |p| <= 5 || p[0] != 0x2F || p[4] >= 0x20 then None
      else Some(Dimensions(Vp8lWidth(p), Vp8lHeight(p)))
    else if kind == VP8 then
      if |p| <= 10 || p[3..6] != [0x9D, 0x01, 0x2A] then None
      else
        var (width, height) := (Le16(p[6..8]) % 0x4000, Le16(p[8..10]) % 0x4000);
        if width == 0 || height == 0 then None else Some(Dimensions(width, height))
    else None
  }

  /** A lossy key frame's header: its tag, the start code, and two 14-bit sizes with two bits of scale each. */
  function PutVp8(tag: seq<byte>, d: Dimensions, scales: (nat, nat), rest: seq<byte>): (p: seq<byte>)
    requires |tag| == 3 && d.width < 0x4000 && d.height < 0x4000 && scales.0 < 4 && scales.1 < 4
  {
    tag + [0x9D, 0x01, 0x2A] + PutLe16(d.width + 0x4000 * scales.0) + PutLe16(d.height + 0x4000 * scales.1) + rest
  }

  /** Each size is read from where it is written, whatever its scale. */
  lemma Vp8OfPut(tag: seq<byte>, d: Dimensions, scales: (nat, nat), rest: seq<byte>)
    requires |tag| == 3 && 0 < d.width < 0x4000 && 0 < d.height < 0x4000 && scales.0 < 4 && scales.1 < 4 && rest != []
    ensures BitstreamDimensions(VP8, PutVp8(tag, d, scales, rest)) == Some(d)
  {
    var p := PutVp8(tag, d, scales, rest);
    assert p[3..6] == [0x9D, 0x01, 0x2A];
    assert p[6..8] == PutLe16(d.width + 0x4000 * scales.0) && p[8..10] == PutLe16(d.height + 0x4000 * scales.1);
  }

  function BitstreamsOf(cs: seq<Chunk>): seq<Chunk> {
    if cs == [] then []
    else
      var last := cs[|cs| - 1];
      BitstreamsOf(cs[..|cs| - 1]) + (if last.Bitstream() then [last] else [])
  }

  /** cs holds one bitstream, and that one shows d. */
  ghost predicate SoleBitstream(cs: seq<Chunk>, d: Dimensions) {
    && |BitstreamsOf(cs)| == 1
    && BitstreamDimensions(BitstreamsOf(cs)[0].kind, BitstreamsOf(cs)[0].payload) == Some(d)
  }

  lemma {:induction false} BitstreamsAppend(a: seq<Chunk>, b: seq<Chunk>)
    ensures BitstreamsOf(a + b) == BitstreamsOf(a) + BitstreamsOf(b)
  {
    if b == [] {
      assert a + b == a;
    } else {
      assert (a + b)[..|a + b| - 1] == a + b[..|b| - 1];
      BitstreamsAppend(a, b[..|b| - 1]);
    }
  }

  // ---------- animation frames ----------

  function DeclaredDimensions(payload: seq<byte>): Dimensions
    requires |payload| >= 12
  {
    Dimensions(Le24(payload[6..9]) + 1, Le24(payload[9..12]) + 1)
  }

  /** A frame is a 16-byte header without reserved bits and its own chunks, one of them a bitstream
      of exactly the declared size. */
  ghost predicate FrameHolds(payload: seq<byte>, cs: seq<Chunk>, d: Dimensions) {
    && |payload| >= 24 && payload[15] < 4
    && Tiles(payload[16..], cs)
    && SoleBitstream(cs, d) && d == DeclaredDimensions(payload)
  }

  ghost predicate IsFrame(payload: seq<byte>, d: Dimensions) {
    exists cs :: FrameHolds(payload, cs, d)
  }

  ghost predicate NoFrame(payload: seq<byte>) {
    forall d :: !IsFrame(payload, d)
  }

  /** The frame's rectangle, whose corner is stored in units of two pixels, lies inside the canvas. */
  predicate InsideCanvas(payload: seq<byte>, d: Dimensions, canvas: Dimensions)
    requires |payload| >= 6
  {
    && 2 * Le24(payload[0..3]) + d.width <= canvas.width
    && 2 * Le24(payload[3..6]) + d.height <= canvas.height
  }

  /** A frame's 16-byte header: its corner in pixels, which is even, its size, its duration and its flags. */
  function PutFrameHeader(left: nat, top: nat, d: Dimensions, duration: nat, flags: byte): (p: seq<byte>)
    requires left % 2 == 0 && top % 2 == 0 && left / 2 < U24 && top / 2 < U24 && duration < U24
    requires 1 <= d.width <= U24 && 1 <= d.height <= U24
    ensures |p| == 16
  {
    PutLe24(left / 2) + PutLe24(top / 2) + PutLe24(d.width - 1) + PutLe24(d.height - 1) + PutLe24(duration) + [flags]
  }

  /** Each field is read from where it is written, and the frame is inside the canvas exactly if its pixels are. */
  lemma FrameHeaderOfPut(left: nat, top: nat, d: Dimensions, duration: nat, flags: byte, rest: seq<byte>, canvas: Dimensions)
    requires left % 2 == 0 && top % 2 == 0 && left / 2 < U24 && top / 2 < U24 && duration < U24
    requires 1 <= d.width <= U24 && 1 <= d.height <= U24
    ensures var p := PutFrameHeader(left, top, d, duration, flags) + rest;
            && DeclaredDimensions(p) == d && p[15] == flags && p[16..] == rest
            && (InsideCanvas(p, d, canvas) <==> left + d.width <= canvas.width && top + d.height <= canvas.height)
  {
    var p := PutFrameHeader(left, top, d, duration, flags) + rest;
    assert p[0..3] == PutLe24(left / 2) && p[3..6] == PutLe24(top / 2);
    assert p[6..9] == PutLe24(d.width - 1) && p[9..12] == PutLe24(d.height - 1);
  }

  // ---------- whole files ----------

  function OfKind(kind: Kind): Chunk -> bool {
    (c: Chunk) => c.kind == kind
  }

  predicate Has(cs: seq<Chunk>, kind: Kind) {
    Any(cs, OfKind(kind))
  }

  /** The extended header: reserved bits clear, 24-bit canvas sizes less one. */
  predicate CanvasValid(payload: seq<byte>) {
    && |payload| == 10 && payload[1..4] == [0, 0, 0]
    && payload[0] < 64 && payload[0] % 2 == 0
  }

  ghost function Canvas(cs: seq<Chunk>): Option<Dimensions> {
    if cs == [] || cs[0].kind != VP8X || !CanvasValid(cs[0].payload) then None
    else Some(Dimensions(Le24(cs[0].payload[4..7]) + 1, Le24(cs[0].payload[7..10]) + 1))
  }

  /** The extended header's ten bytes: flags, three reserved bytes, and the canvas. */
  function PutCanvas(flags: byte, d: Dimensions): (p: seq<byte>)
    requires 1 <= d.width <= U24 && 1 <= d.height <= U24
    ensures |p| == 10
  {
    [flags, 0, 0, 0] + PutLe24(d.width - 1) + PutLe24(d.height - 1)
  }

  /** Each dimension of the canvas is read from where it is written. */
  lemma CanvasOfPut(flags: byte, d: Dimensions, rest: seq<Chunk>)
    requires 1 <= d.width <= U24 && 1 <= d.height <= U24 && flags < 64 && flags % 2 == 0
    ensures Canvas([Chunk(VP8X, PutCanvas(flags, d), [])] + rest) == Some(d)
    ensures Animated([Chunk(VP8X, PutCanvas(flags, d), [])] + rest) <==> flags / 2 % 2 == 1
  {
    var p := PutCanvas(flags, d);
    assert p[1..4] == [0, 0, 0] && p[4..7] == PutLe24(d.width - 1) && p[7..10] == PutLe24(d.height - 1);
  }

  ghost predicate Animated(cs: seq<Chunk>) {
    Canvas(cs).Some? && cs[0].payload[0] / 2 % 2 == 1
  }

  /** Chunk c may follow the chunks cs. */
  ghost predicate MayFollow(cs: seq<Chunk>, c: Chunk) {
    if c.kind == VP8X then cs == [] && CanvasValid(c.payload)
    else if c.Bitstream() then BitstreamsOf(cs) == [] && BitstreamDimensions(c.kind, c.payload).Some?
    else if c.kind == ANIM then !Has(cs, ANIM) && |c.payload| == 6
    else if c.kind == ANMF then
      && Has(cs, ANIM) && Canvas(cs).Some?
      && exists d :: IsFrame(c.payload, d) && InsideCanvas(c.payload, d, Canvas(cs).value)
    else true
  }

  /** Every chunk may follow the ones in front of it. */
  ghost predicate WellOrdered(cs: seq<Chunk>) {
    cs == [] ||
    (WellOrdered(cs[..|cs| - 1]) && MayFollow(cs[..|cs| - 1], cs[|cs| - 1]))
  }

  lemma {:induction false} WellOrderedAt(cs: seq<Chunk>, i: nat)
    requires WellOrdered(cs) && i < |cs|
    ensures MayFollow(cs[..i], cs[i])
  {
    if i < |cs| - 1 {
      WellOrderedAt(cs[..|cs| - 1], i);
      assert cs[..|cs| - 1][..i] == cs[..i];
    }
  }

  /** An animation shows its canvas and has no still; a still has one bitstream that fills any canvas. */
  ghost predicate Shows(cs: seq<Chunk>, d: Dimensions) {
    if Animated(cs) then
      BitstreamsOf(cs) == [] && Has(cs, ANIM) && Has(cs, ANMF) && Canvas(cs) == Some(d)
    else
      !Has(cs, ANIM) && !Has(cs, ANMF) && SoleBitstream(cs, d) && (Canvas(cs).Some? ==> Canvas(cs).value == d)
  }

  ghost predicate ShowsNothing(cs: seq<Chunk>) {
    forall d :: !Shows(cs, d)
  }

  /** The file header: `RIFF`, a size that counts everything behind it, `WEBP`. */
  function Headed(body: seq<byte>): (file: seq<byte>)
    requires |body| + 4 < U32
    ensures |file| == 12 + |body| && file[12..] == body
  {
    RIFF + PutLe32(|body| + 4) + WEBP + body
  }

  ghost predicate IsWebp(file: seq<byte>, cs: seq<Chunk>, d: Dimensions) {
    && |Print(cs)| + 4 < U32
    && AllPadded(cs)
    && file == Headed(Print(cs))
    && WellOrdered(cs) && Shows(cs, d)
  }

  ghost predicate HasImage(file: seq<byte>, d: Dimensions) {
    exists cs :: IsWebp(file, cs, d)
  }

  ghost predicate NoImage(file: seq<byte>) {
    forall d :: !HasImage(file, d)
  }

  lemma ImageIsUnique(file: seq<byte>, a: seq<Chunk>, d: Dimensions, b: seq<Chunk>, e: Dimensions)
    requires IsWebp(file, a, d) && IsWebp(file, b, e)
    ensures a == b && d == e
  {
    ChunksOfPrint(a);
    ChunksOfPrint(b);
  }

  /** Every frame of an accepted animation: its bitstream has the declared size, inside the canvas. */
  lemma FramesStayInside(file: seq<byte>, cs: seq<Chunk>, d: Dimensions, i: nat)
    requires IsWebp(file, cs, d) && i < |cs| && cs[i].kind == ANMF
    ensures Animated(cs)
    ensures |cs[i].payload| >= 12 && IsFrame(cs[i].payload, DeclaredDimensions(cs[i].payload))
    ensures InsideCanvas(cs[i].payload, DeclaredDimensions(cs[i].payload), d)
  {
    assert Has(cs, ANMF);
    var before := cs[..i];
    WellOrderedAt(cs, i);
    assert before[0] == cs[0];
    var e :| IsFrame(cs[i].payload, e) && InsideCanvas(cs[i].payload, e, Canvas(before).value);
    var fs :| FrameHolds(cs[i].payload, fs, e);
  }
}
