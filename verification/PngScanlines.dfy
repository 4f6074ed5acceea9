/**
 The scanline arithmetic of the PNG checker: interlace passes, the decoded size they imply and the
 filter byte that starts every row (section 2.6 of RFC 2083).
 */
module PngScanlines {
  import opened Bytes

  const MAX_DECODED_BYTES: nat := 128 * 1024 * 1024

  /** The pixels (x0 + i*dx, y0 + j*dy) of one interlace pass. */
  datatype Pass = Pass(x0: nat, y0: nat, dx: nat, dy: nat)

  const SEQUENTIAL: seq<Pass> := [Pass(0, 0, 1, 1)]

  const ADAM7: seq<Pass> := [
    Pass(0, 0, 8, 8), Pass(4, 0, 8, 8), Pass(0, 4, 4, 8), Pass(2, 0, 4, 4),
    Pass(0, 2, 2, 4), Pass(1, 0, 2, 2), Pass(0, 1, 1, 2)]

  function Passes(interlace: nat): seq<Pass> {
    if interlace == 0 then SEQUENTIAL else ADAM7
  }

  ghost predicate Strided(passes: seq<Pass>) {
    forall p :: p in passes ==> p.x0 < p.dx && p.y0 < p.dy
  }

  /** How many of start, start + step, start + 2*step, ... lie below extent. */
  function PassLength(extent: nat, start: nat, step: nat): nat
    requires start < step
  {
    (extent - start + step - 1) / step
  }

  lemma MulOrder(a: nat, b: nat, c: nat)
    requires a <= b
    ensures a * c <= b * c
  {
  }

  lemma MulSplit(a: nat, b: nat, c: nat)
    ensures (a + b) * c == a * c + b * c
  {
  }

  lemma DivisionBounds(n: nat, d: nat)
    requires 0 < d
    ensures (n / d) * d <= n < (n / d) * d + d
  {
    assert n == d * (n / d) + n % d;
  }

  lemma PassLengthCounts(extent: nat, start: nat, step: nat, i: nat)
    requires start < step
    ensures i < PassLength(extent, start, step) <==> start + i * step < extent
  {
    var q := PassLength(extent, start, step);
    DivisionBounds(extent - start + step - 1, step);
    if i < q {
      MulOrder(i + 1, q, step);
      MulSplit(i, 1, step);
    } else {
      MulOrder(q, i, step);
    }
  }

  // ---------- Adam7 visits every pixel exactly once ----------

  ghost predicate Visits(p: Pass, w: nat, h: nat, i: nat, j: nat, x: nat, y: nat)
    requires p.x0 < p.dx && p.y0 < p.dy
  {
    && i < PassLength(w, p.x0, p.dx) && j < PassLength(h, p.y0, p.dy)
    && x == p.x0 + i * p.dx && y == p.y0 + j * p.dy
  }

  /** The only pass that may hold column x and row y. */
  function PassOf(x: nat, y: nat): (k: nat)
    ensures k < 7
  {
    if y % 2 == 1 then 6
    else if x % 2 == 1 then 5
    else if y % 4 == 2 then 4
    else if x % 4 == 2 then 3
    else if y % 8 == 4 then 2
    else if x % 8 == 4 then 1
    else 0
  }

  lemma PassOfStride(x: nat, y: nat)
    ensures var p := ADAM7[PassOf(x, y)];
            p.x0 < p.dx && x == p.x0 + x / p.dx * p.dx && p.y0 < p.dy && y == p.y0 + y / p.dy * p.dy
  {
  }

  lemma Adam7VisitsEveryPixel(w: nat, h: nat, x: nat, y: nat)
    requires x < w && y < h
    ensures exists k: nat, i: nat, j: nat :: k < 7 && Visits(ADAM7[k], w, h, i, j, x, y)
  {
    var k := PassOf(x, y);
    var p := ADAM7[k];
    PassOfStride(x, y);
    var i, j := x / p.dx, y / p.dy;
    PassLengthCounts(w, p.x0, p.dx, i);
    PassLengthCounts(h, p.y0, p.dy, j);
    assert Visits(ADAM7[k], w, h, i, j, x, y);
  }

  lemma Adam7VisitsOnlyOnce(w: nat, h: nat, x: nat, y: nat, k: nat, i: nat, j: nat, k': nat, i': nat, j': nat)
    requires k < 7 && Visits(ADAM7[k], w, h, i, j, x, y)
    requires k' < 7 && Visits(ADAM7[k'], w, h, i', j', x, y)
    ensures k == k' && i == i' && j == j' && x < w && y < h
  {
    Adam7PassIsDetermined(w, h, x, y, k, i, j);
    Adam7PassIsDetermined(w, h, x, y, k', i', j');
  }

  lemma Adam7PassIsDetermined(w: nat, h: nat, x: nat, y: nat, k: nat, i: nat, j: nat)
    requires k < 7 && Visits(ADAM7[k], w, h, i, j, x, y)
    ensures k == PassOf(x, y) && i == x / ADAM7[k].dx && j == y / ADAM7[k].dy
  {
    var p := ADAM7[k];
    assert p.dx in {1, 2, 4, 8} && p.dy in {2, 4, 8};
    assert x / p.dx == i && x % p.dx == p.x0;
    assert y / p.dy == j && y % p.dy == p.y0;
  }

  // ---------- pixel count and decoded size ----------

  function PixelCount(passes: seq<Pass>, w: nat, h: nat): nat
    requires Strided(passes)
  {
    if passes == [] then 0
    else
      var p := passes[0];
      PassLength(w, p.x0, p.dx) * PassLength(h, p.y0, p.dy) + PixelCount(passes[1..], w, h)
  }

  lemma PassLengthOfHalves(extent: nat, start: nat, step: nat, i: nat)
    requires start < step
    ensures i < PassLength(extent, start, 2 * step) <==> 2 * i < PassLength(extent, start, step)
    ensures i < PassLength(extent, start + step, 2 * step) <==> 2 * i + 1 < PassLength(extent, start, step)
  {
    PassLengthCounts(extent, start, 2 * step, i);
    PassLengthCounts(extent, start + step, 2 * step, i);
    PassLengthCounts(extent, start, step, 2 * i);
    PassLengthCounts(extent, start, step, 2 * i + 1);
    assert i * (2 * step) == (2 * i) * step;
    assert (2 * i + 1) * step == (2 * i) * step + step;
  }

  /** Splitting a progression into its even and odd members. */
  lemma PassLengthSplits(extent: nat, start: nat, step: nat)
    requires start < step
    ensures PassLength(extent, start, step)
         == PassLength(extent, start, 2 * step) + PassLength(extent, start + step, 2 * step)
  {
    var n := PassLength(extent, start, step);
    PassLengthOfHalves(extent, start, step, n / 2);
    PassLengthOfHalves(extent, start, step, (n + 1) / 2);
    if n > 0 {
      PassLengthOfHalves(extent, start, step, (n + 1) / 2 - 1);
    }
    if n > 1 {
      PassLengthOfHalves(extent, start, step, n / 2 - 1);
    }
  }

  lemma PassLengthOne(extent: nat)
    ensures PassLength(extent, 0, 1) == extent
  {
  }

  lemma Adam7Lengths(n: nat)
    ensures PassLength(n, 0, 4) == PassLength(n, 0, 8) + PassLength(n, 4, 8)
    ensures PassLength(n, 0, 2) == PassLength(n, 0, 4) + PassLength(n, 2, 4)
    ensures n == PassLength(n, 0, 1) == PassLength(n, 0, 2) + PassLength(n, 1, 2)
  {
    PassLengthOne(n);
    PassLengthSplits(n, 0, 1);
    PassLengthSplits(n, 0, 2);
    PassLengthSplits(n, 0, 4);
  }

  lemma PassesCountEveryPixel(interlace: nat, w: nat, h: nat)
    ensures Strided(Passes(interlace))
    ensures PixelCount(Passes(interlace), w, h) == w * h
  {
    if interlace == 0 {
      PassLengthOne(w);
      PassLengthOne(h);
      assert SEQUENTIAL[1..] == [];
    } else {
      Adam7Lengths(w);
      Adam7Lengths(h);
      UnfoldAdam7(w, h);
      Adam7Products(
        PassLength(w, 0, 8), PassLength(w, 4, 8), PassLength(w, 0, 4), PassLength(w, 2, 4),
        PassLength(w, 0, 2), PassLength(w, 1, 2), w,
        PassLength(h, 0, 8), PassLength(h, 4, 8), PassLength(h, 0, 4), PassLength(h, 2, 4),
        PassLength(h, 0, 2), PassLength(h, 1, 2), h);
    }
  }

  lemma UnfoldAdam7(w: nat, h: nat)
    ensures Strided(ADAM7)
    ensures PixelCount(ADAM7, w, h)
         == PassLength(w, 0, 8) * PassLength(h, 0, 8) + PassLength(w, 4, 8) * PassLength(h, 0, 8)
          + PassLength(w, 0, 4) * PassLength(h, 4, 8) + PassLength(w, 2, 4) * PassLength(h, 0, 4)
          + PassLength(w, 0, 2) * PassLength(h, 2, 4) + PassLength(w, 1, 2) * PassLength(h, 0, 2)
          + PassLength(w, 0, 1) * PassLength(h, 1, 2)
  {
    var a := ADAM7;
    assert a[1..][1..] == a[2..] && a[2..][1..] == a[3..] && a[3..][1..] == a[4..];
    assert a[4..][1..] == a[5..] && a[5..][1..] == a[6..] && a[6..][1..] == a[7..] == [];
    assert PixelCount(a[7..], w, h) == 0;
    var s6 := PixelCount(a[6..], w, h);
    assert s6 == PassLength(w, 0, 1) * PassLength(h, 1, 2);
    var s5 := PixelCount(a[5..], w, h);
    assert s5 == PassLength(w, 1, 2) * PassLength(h, 0, 2) + s6;
    var s4 := PixelCount(a[4..], w, h);
    assert s4 == PassLength(w, 0, 2) * PassLength(h, 2, 4) + s5;
    var s3 := PixelCount(a[3..], w, h);
    assert s3 == PassLength(w, 2, 4) * PassLength(h, 0, 4) + s4;
    var s2 := PixelCount(a[2..], w, h);
    assert s2 == PassLength(w, 0, 4) * PassLength(h, 4, 8) + s3;
    var s1 := PixelCount(a[1..], w, h);
    assert s1 == PassLength(w, 4, 8) * PassLength(h, 0, 8) + s2;
  }

  /** Each pass after the first doubles the columns, then the rows, of the grid covered so far. */
  lemma Adam7Products(
      w08: nat, w48: nat, w04: nat, w24: nat, w02: nat, w12: nat, w: nat,
      h08: nat, h48: nat, h04: nat, h24: nat, h02: nat, h12: nat, h: nat)
    requires w04 == w08 + w48 && w02 == w04 + w24 && w == w02 + w12
    requires h04 == h08 + h48 && h02 == h04 + h24 && h == h02 + h12
    ensures w08 * h08 + w48 * h08 + w04 * h48 + w24 * h04 + w02 * h24 + w12 * h02 + w * h12 == w * h
  {
    MulSplit(w08, w48, h08);
    assert w04 * h04 == w04 * h08 + w04 * h48;
    MulSplit(w04, w24, h04);
    assert w02 * h02 == w02 * h04 + w02 * h24;
    MulSplit(w02, w12, h02);
    assert w * h == w * h02 + w * h12;
  }

  /** One run of equally long scanlines; each row holds a filter byte and then `bytes` bytes. */
  datatype Rows = Rows(bytes: nat, count: nat) {
    function Size(): nat { (bytes + 1) * count }
  }

  function DecodedSize(groups: seq<Rows>): nat {
    if groups == [] then 0 else groups[0].Size() + DecodedSize(groups[1..])
  }

  lemma {:induction false} DecodedSizeAppend(a: seq<Rows>, b: seq<Rows>)
    ensures DecodedSize(a + b) == DecodedSize(a) + DecodedSize(b)
  {
    if a == [] {
      assert a + b == b;
    } else {
      assert (a + b)[1..] == a[1..] + b;
      DecodedSizeAppend(a[1..], b);
    }
  }

  /** The rows of one pass; a pass without columns or without rows stores nothing. */
  function PassRows(p: Pass, w: nat, h: nat, bitsPerPixel: nat): seq<Rows>
    requires p.x0 < p.dx && p.y0 < p.dy
  {
    var pw, ph := PassLength(w, p.x0, p.dx), PassLength(h, p.y0, p.dy);
    if pw == 0 || ph == 0 then [] else [Rows((pw * bitsPerPixel + 7) / 8, ph)]
  }

  /** A row takes the fewest bytes that hold the bits of its pixels. */
  lemma RowsAreMinimal(p: Pass, w: nat, h: nat, bitsPerPixel: nat)
    requires p.x0 < p.dx && p.y0 < p.dy
    ensures forall r <- PassRows(p, w, h, bitsPerPixel) ::
              && PassLength(w, p.x0, p.dx) * bitsPerPixel <= 8 * r.bytes < PassLength(w, p.x0, p.dx) * bitsPerPixel + 8
              && r.count == PassLength(h, p.y0, p.dy)
  {
    var bits := PassLength(w, p.x0, p.dx) * bitsPerPixel;
    assert bits <= 8 * ((bits + 7) / 8) < bits + 8;
  }

  function Groups(passes: seq<Pass>, w: nat, h: nat, bitsPerPixel: nat): seq<Rows>
    requires Strided(passes)
  {
    if passes == [] then []
    else PassRows(passes[0], w, h, bitsPerPixel) + Groups(passes[1..], w, h, bitsPerPixel)
  }

  lemma PassHoldsEveryBit(p: Pass, w: nat, h: nat, bitsPerPixel: nat)
    requires p.x0 < p.dx && p.y0 < p.dy
    ensures (PassLength(w, p.x0, p.dx) * PassLength(h, p.y0, p.dy)) * bitsPerPixel
         <= 8 * DecodedSize(PassRows(p, w, h, bitsPerPixel))
  {
    var pw, ph := PassLength(w, p.x0, p.dx), PassLength(h, p.y0, p.dy);
    if pw != 0 && ph != 0 {
      RowHoldsEveryBit(pw, ph, bitsPerPixel);
    }
  }

  lemma RowHoldsEveryBit(pw: nat, ph: nat, bitsPerPixel: nat)
    ensures (pw * ph) * bitsPerPixel <= 8 * Rows((pw * bitsPerPixel + 7) / 8, ph).Size()
  {
    var bits, rowBytes := pw * bitsPerPixel, (pw * bitsPerPixel + 7) / 8;
    assert (pw * ph) * bitsPerPixel == bits * ph;
    assert bits * ph <= (8 * (rowBytes + 1)) * ph;
    assert (8 * (rowBytes + 1)) * ph == 8 * ((rowBytes + 1) * ph);
  }

  lemma AddBounds(a: nat, b: nat, bits: nat, sizeA: nat, sizeB: nat)
    requires a * bits <= 8 * sizeA && b * bits <= 8 * sizeB
    ensures (a + b) * bits <= 8 * (sizeA + sizeB)
  {
    MulSplit(a, b, bits);
  }

  lemma {:induction false} GroupsHoldEveryBit(passes: seq<Pass>, w: nat, h: nat, bitsPerPixel: nat)
    requires Strided(passes)
    ensures PixelCount(passes, w, h) * bitsPerPixel <= 8 * DecodedSize(Groups(passes, w, h, bitsPerPixel))
  {
    if passes != [] {
      var p := passes[0];
      var here := PassLength(w, p.x0, p.dx) * PassLength(h, p.y0, p.dy);
      var rest := PixelCount(passes[1..], w, h);
      GroupsHoldEveryBit(passes[1..], w, h, bitsPerPixel);
      PassHoldsEveryBit(p, w, h, bitsPerPixel);
      DecodedSizeAppend(PassRows(p, w, h, bitsPerPixel), Groups(passes[1..], w, h, bitsPerPixel));
      AddBounds(here, rest, bitsPerPixel, DecodedSize(PassRows(p, w, h, bitsPerPixel)),
                DecodedSize(Groups(passes[1..], w, h, bitsPerPixel)));
    }
  }

  /** Whatever the image claims, its pixels fit in the decoded bytes that the checker asks for. */
  lemma DecodedSizeBoundsPixels(interlace: nat, w: nat, h: nat, bitsPerPixel: nat)
    ensures Strided(Passes(interlace))
    ensures w * h * bitsPerPixel <= 8 * DecodedSize(Groups(Passes(interlace), w, h, bitsPerPixel))
  {
    PassesCountEveryPixel(interlace, w, h);
    GroupsHoldEveryBit(Passes(interlace), w, h, bitsPerPixel);
  }

  method ExpectedScanlines(w: nat, h: nat, bitsPerPixel: nat, interlace: nat)
      returns (r: Option<seq<Rows>>)
    ensures Strided(Passes(interlace))
    ensures var groups := Groups(Passes(interlace), w, h, bitsPerPixel);
            r == if DecodedSize(groups) <= MAX_DECODED_BYTES then Some(groups) else None
    ensures r.Some? ==> w * h * bitsPerPixel <= 8 * DecodedSize(r.value) <= 8 * MAX_DECODED_BYTES
  {
    DecodedSizeBoundsPixels(interlace, w, h, bitsPerPixel);
    r := ScanlinesOfPasses(Passes(interlace), w, h, bitsPerPixel);
  }

  lemma Regroup(a: seq<Rows>, b: seq<Rows>, c: seq<Rows>)
    ensures a + (b + c) == a + b + c
  {
  }

  method ScanlinesOfPasses(passes: seq<Pass>, w: nat, h: nat, bitsPerPixel: nat)
      returns (r: Option<seq<Rows>>)
    requires Strided(passes)
    ensures var groups := Groups(passes, w, h, bitsPerPixel);
            r == if DecodedSize(groups) <= MAX_DECODED_BYTES then Some(groups) else None
  {
    ghost var all := Groups(passes, w, h, bitsPerPixel);
    var groups: seq<Rows>, decodedSize := [], 0;
    for k := 0 to |passes|
      invariant all == groups + Groups(passes[k..], w, h, bitsPerPixel)
      invariant decodedSize == DecodedSize(groups) <= MAX_DECODED_BYTES
    {
      var p := passes[k];
      ghost var later := Groups(passes[k + 1..], w, h, bitsPerPixel);
      assert passes[k..][1..] == passes[k + 1..];
      var rows := PassRows(p, w, h, bitsPerPixel);
      Regroup(groups, rows, later);
      decodedSize := decodedSize + DecodedSize(rows);
      DecodedSizeAppend(groups, rows);
      if decodedSize > MAX_DECODED_BYTES {
        DecodedSizeAppend(groups + rows, later);
        return None;
      }
      groups := groups + rows;
    }
    assert all == groups;
    return Some(groups);
  }

  // ---------- the filter byte of every row ----------

  /** What the decompressor reports when asked for at most `limit` bytes; None is a zlib error. */
  datatype Inflated = Inflated(decoded: seq<byte>, eof: bool, unusedData: bool, unconsumedTail: bool)

  type Inflater = (seq<byte>, nat) -> Option<Inflated>

  /** The length of every row in the order in which rows are stored. */
  ghost function RowSizes(groups: seq<Rows>): seq<nat> {
    if groups == [] then []
    else seq(groups[0].count, _ => groups[0].bytes + 1) + RowSizes(groups[1..])
  }

  ghost function Total(sizes: seq<nat>): nat {
    if sizes == [] then 0 else Total(sizes[..|sizes| - 1]) + sizes[|sizes| - 1]
  }

  /** Row k starts where the k rows before it end. */
  ghost function RowStart(groups: seq<Rows>, k: nat): nat
    requires k <= |RowSizes(groups)|
  {
    Total(RowSizes(groups)[..k])
  }

  lemma {:induction false} TotalAppend(a: seq<nat>, b: seq<nat>)
    ensures Total(a + b) == Total(a) + Total(b)
  {
    if b == [] {
      assert a + b == a;
    } else {
      assert (a + b)[..|a + b| - 1] == a + b[..|b| - 1];
      TotalAppend(a, b[..|b| - 1]);
    }
  }

  lemma {:induction false} TotalOfEqualRows(size: nat, count: nat)
    ensures Total(seq(count, _ => size)) == size * count
  {
    if count > 0 {
      var s := seq(count, _ => size);
      assert s[..|s| - 1] == seq(count - 1, _ => size);
      TotalOfEqualRows(size, count - 1);
      assert size * (count - 1) + size == size * count;
    }
  }

  /** The rows tile the decoded bytes: the last one ends at the decoded size. */
  lemma {:induction false} RowsTileDecodedSize(groups: seq<Rows>)
    ensures RowStart(groups, |RowSizes(groups)|) == DecodedSize(groups)
  {
    var sizes := RowSizes(groups);
    assert sizes[..|sizes|] == sizes;
    if groups != [] {
      var first := seq(groups[0].count, _ => groups[0].bytes + 1);
      var rest := RowSizes(groups[1..]);
      assert rest[..|rest|] == rest;
      RowsTileDecodedSize(groups[1..]);
      TotalAppend(first, rest);
      TotalOfEqualRows(groups[0].bytes + 1, groups[0].count);
    }
  }

  lemma {:induction false} RowSizesAppend(a: seq<Rows>, b: seq<Rows>)
    ensures RowSizes(a + b) == RowSizes(a) + RowSizes(b)
  {
    if a == [] {
      assert a + b == b;
    } else {
      assert (a + b)[1..] == a[1..] + b;
      RowSizesAppend(a[1..], b);
    }
  }

  /** Row i of group g, counted over the whole image, and its first byte. */
  lemma RowStartInGroup(groups: seq<Rows>, g: nat, i: nat)
    requires g < |groups| && i <= groups[g].count
    ensures |RowSizes(groups[..g])| + i <= |RowSizes(groups)|
    ensures RowStart(groups, |RowSizes(groups[..g])| + i)
         == DecodedSize(groups[..g]) + i * (groups[g].bytes + 1)
  {
    var a, b := groups[..g], groups[g..];
    assert groups == a + b;
    RowSizesAppend(a, b);
    var size := groups[g].bytes + 1;
    var sizes, before := RowSizes(groups), RowSizes(a);
    assert before[..|before|] == before;
    RowsTileDecodedSize(a);
    assert sizes[..|before| + i] == before + seq(i, _ => size);
    TotalAppend(before, seq(i, _ => size));
    TotalOfEqualRows(size, i);
  }

  /** The filter bytes of the rows from, from + 1, ..., from + count - 1. */
  ghost predicate RowFiltersValid(decoded: seq<byte>, groups: seq<Rows>, from: nat, count: nat)
    requires from + count <= |RowSizes(groups)|
  {
    forall k :: from <= k < from + count ==> RowStart(groups, k) < |decoded| && decoded[RowStart(groups, k)] <= 4
  }

  ghost predicate ScanlinesFit(inflate: Inflater, compressed: seq<byte>, groups: seq<Rows>) {
    var result := inflate(compressed, DecodedSize(groups) + 1);
    && result.Some?
    && |result.value.decoded| == DecodedSize(groups)
    && result.value.eof && !result.value.unusedData && !result.value.unconsumedTail
    && RowFiltersValid(result.value.decoded, groups, 0, |RowSizes(groups)|)
  }

  method ValidateScanlines(inflate: Inflater, compressed: seq<byte>, groups: seq<Rows>) returns (ok: bool)
    ensures ok <==> ScanlinesFit(inflate, compressed, groups)
  {
    var expectedSize := 0;
    for g := 0 to |groups|
      invariant expectedSize == DecodedSize(groups[..g])
    {
      assert groups[..g + 1] == groups[..g] + [groups[g]];
      DecodedSizeAppend(groups[..g], [groups[g]]);
      expectedSize := expectedSize + groups[g].Size();
    }
    assert groups[..|groups|] == groups;
    var result := inflate(compressed, expectedSize + 1);
    if result.None? {
      return false;
    }
    var Inflated(decoded, eof, unusedData, unconsumedTail) := result.value;
    if |decoded| != expectedSize || !eof || unusedData || unconsumedTail {
      return false;
    }
    ok := FiltersBelowFive(decoded, groups);
  }

  /** The strided walk over first bytes: one group after the other, one row size at a time. */
  method FiltersBelowFive(decoded: seq<byte>, groups: seq<Rows>) returns (ok: bool)
    requires |decoded| == DecodedSize(groups)
    ensures ok <==> RowFiltersValid(decoded, groups, 0, |RowSizes(groups)|)
  {
    var offset, g := 0, 0;
    assert groups[..0] == [];
    while g < |groups|
      invariant g <= |groups|
      invariant offset == DecodedSize(groups[..g])
      invariant |RowSizes(groups[..g])| <= |RowSizes(groups)|
      invariant RowFiltersValid(decoded, groups, 0, |RowSizes(groups[..g])|)
    {
      assert groups[..g + 1] == groups[..g] + [groups[g]];
      RowStartInGroup(groups, g, groups[g].count);
      RowSizesAppend(groups[..g], [groups[g]]);
      assert |RowSizes([groups[g]])| == groups[g].count;
      DecodedSizeAppend(groups[..g], [groups[g]]);
      assert DecodedSize([groups[g]]) == groups[g].Size();
      var groupEnd;
      ok, groupEnd := GroupFiltersBelowFive(decoded, groups, g, offset);
      if !ok {
        return false;
      }
      offset := groupEnd;
      g := g + 1;
    }
    assert groups[..g] == groups;
    return true;
  }

  method GroupFiltersBelowFive(decoded: seq<byte>, groups: seq<Rows>, g: nat, start: nat)
      returns (ok: bool, end: nat)
    requires |decoded| == DecodedSize(groups) && g < |groups| && start == DecodedSize(groups[..g])
    requires |RowSizes(groups[..g])| + groups[g].count <= |RowSizes(groups)|
    ensures ok <==> RowFiltersValid(decoded, groups, |RowSizes(groups[..g])|, groups[g].count)
    ensures ok ==> end == start + groups[g].Size()
  {
    hide DecodedSize, RowSizes, RowStart;
    var offset, rowSize := start, groups[g].bytes + 1;
    ghost var firstRow := |RowSizes(groups[..g])|;
    GroupStarts(groups, g);
    GroupEnds(groups, g);
    var i := 0;
    while i < groups[g].count
      invariant i <= groups[g].count
      invariant offset == RowStart(groups, firstRow + i)
      invariant RowFiltersValid(decoded, groups, firstRow, i)
    {
      RowOfGroup(groups, g, i);
      if decoded[offset] > 4 {
        return false, 0;
      }
      offset := offset + rowSize;
      i := i + 1;
    }
    return true, offset;
  }

  lemma Product(a: nat, b: nat)
    ensures a * b == b * a && 0 * b == 0
  {
  }

  /** Where a group's rows start. */
  lemma GroupStarts(groups: seq<Rows>, g: nat)
    requires g < |groups| && |RowSizes(groups[..g])| <= |RowSizes(groups)|
    ensures RowStart(groups, |RowSizes(groups[..g])|) == DecodedSize(groups[..g])
  {
    RowStartInGroup(groups, g, 0);
    Product(0, groups[g].bytes + 1);
  }

  /** Where they end. */
  lemma GroupEnds(groups: seq<Rows>, g: nat)
    requires g < |groups| && |RowSizes(groups[..g])| + groups[g].count <= |RowSizes(groups)|
    ensures RowStart(groups, |RowSizes(groups[..g])| + groups[g].count) == DecodedSize(groups[..g]) + groups[g].Size()
  {
    RowStartInGroup(groups, g, groups[g].count);
    Product(groups[g].count, groups[g].bytes + 1);
  }

  lemma RowOfGroup(groups: seq<Rows>, g: nat, i: nat)
    requires g < |groups| && i < groups[g].count
    ensures |RowSizes(groups[..g])| + i < |RowSizes(groups)|
    ensures RowStart(groups, |RowSizes(groups[..g])| + i + 1)
         == RowStart(groups, |RowSizes(groups[..g])| + i) + groups[g].bytes + 1 <= DecodedSize(groups)
  {
    RowStartInGroup(groups, g, i);
    RowStartInGroup(groups, g, i + 1);
    RowEndsInside(groups, |RowSizes(groups[..g])| + i + 1);
    MulSplit(i, 1, groups[g].bytes + 1);
  }

  lemma RowEndsInside(groups: seq<Rows>, k: nat)
    requires k <= |RowSizes(groups)|
    ensures RowStart(groups, k) <= DecodedSize(groups)
  {
    var sizes := RowSizes(groups);
    assert sizes == sizes[..k] + sizes[k..];
    TotalAppend(sizes[..k], sizes[k..]);
    RowsTileDecodedSize(groups);
    assert sizes[..|sizes|] == sizes;
  }
}
