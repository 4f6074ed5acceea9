/** The JPEG scanner's loops, and the proof that they accept exactly the documents of module Jpeg. */
module JpegScanner {
  import opened Bytes
  import opened Jpeg

  // ---------- the semantic checks as a fold over segments ----------

  /** The scanner's `dimensions` and `saw_scan` carried over the segments that are still to come. */
  ghost function Run(segments: seq<Segment>, dims: Option<Dimensions>, sawScan: bool): Option<Dimensions> {
    if segments == [] then (if sawScan then dims else None)
    else
      var seg, rest := segments[0], segments[1..];
      if seg.Frame() then
        if FrameHeaderValid(seg.data) && (dims.Some? ==> dims.value == FrameDimensions(seg.data))
        then Run(rest, Some(FrameDimensions(seg.data)), sawScan) else None
      else if seg.Scan? then
        if dims.Some? && ScanHeaderValid(seg.data) && CarriesData(seg.entropy)
        then Run(rest, dims, true) else None
      else Run(rest, dims, sawScan)
  }

  ghost function Finish(d: Option<Document>, dims: Option<Dimensions>, sawScan: bool): Option<Dimensions> {
    if d.None? then None else Run(d.value.segments, dims, sawScan)
  }

  /** Before every scan the dimensions are known, from an earlier segment or from the start. */
  ghost predicate FramesFirst(segments: seq<Segment>, dims: Option<Dimensions>) {
    forall i :: 0 <= i < |segments| && segments[i].Scan?
      ==> dims.Some? || exists j :: 0 <= j < i && segments[j].Frame()
  }

  ghost predicate ImageFrom(segments: seq<Segment>, dims: Option<Dimensions>, sawScan: bool, d: Dimensions) {
    && (dims.Some? ==> dims.value == d)
    && (forall s <- segments :: s.Frame() ==> FrameHeaderValid(s.data) && FrameDimensions(s.data) == d)
    && (forall s <- segments :: s.Scan? ==> ScanHeaderValid(s.data) && CarriesData(s.entropy))
    && FramesFirst(segments, dims)
    && (sawScan || exists s <- segments :: s.Scan?)
  }

  lemma {:induction false} RunMeansImage(segments: seq<Segment>, dims: Option<Dimensions>, sawScan: bool, d: Dimensions)
    requires sawScan ==> dims.Some?
    ensures Run(segments, dims, sawScan) == Some(d) <==> ImageFrom(segments, dims, sawScan, d)
  {
    if segments != [] {
      var seg, rest := segments[0], segments[1..];
      assert segments == [seg] + rest;
      if seg.Frame() {
        if FrameHeaderValid(seg.data) {
          RunMeansImage(rest, Some(FrameDimensions(seg.data)), sawScan, d);
          FrameFirst(seg, rest, dims, sawScan, d);
        }
      } else if seg.Scan? {
        if dims.Some? {
          RunMeansImage(rest, dims, true, d);
        } else {
          assert segments[0].Scan?;
        }
      } else {
        RunMeansImage(rest, dims, sawScan, d);
        OtherFirst(seg, rest, dims, sawScan, d);
      }
    }
  }

  lemma FrameFirst(seg: Segment, rest: seq<Segment>, dims: Option<Dimensions>, sawScan: bool, d: Dimensions)
    requires seg.Frame() && FrameHeaderValid(seg.data)
    ensures ImageFrom([seg] + rest, dims, sawScan, d)
       <==> (dims.Some? ==> dims.value == d) && ImageFrom(rest, Some(FrameDimensions(seg.data)), sawScan, d)
  {
    var all := [seg] + rest;
    assert forall s :: s in all <==> s == seg || s in rest;
    assert all[0].Frame();
  }

  lemma FramesFirstSkips(seg: Segment, rest: seq<Segment>, dims: Option<Dimensions>)
    requires !seg.Frame() && !seg.Scan?
    ensures FramesFirst([seg] + rest, dims) <==> FramesFirst(rest, dims)
  {
    var all := [seg] + rest;
    if FramesFirst(all, dims) && dims.None? {
      forall i | 0 <= i < |rest| && rest[i].Scan?
        ensures exists j :: 0 <= j < i && rest[j].Frame()
      {
        assert all[i + 1].Scan?;
        var j :| 0 <= j < i + 1 && all[j].Frame();
        assert rest[j - 1].Frame();
      }
    }
    if FramesFirst(rest, dims) && dims.None? {
      forall i | 0 <= i < |all| && all[i].Scan?
        ensures exists j :: 0 <= j < i && all[j].Frame()
      {
        assert rest[i - 1].Scan?;
        var j :| 0 <= j < i - 1 && rest[j].Frame();
        assert all[j + 1].Frame();
      }
    }
  }

  lemma OtherFirst(seg: Segment, rest: seq<Segment>, dims: Option<Dimensions>, sawScan: bool, d: Dimensions)
    requires !seg.Frame() && !seg.Scan?
    ensures ImageFrom([seg] + rest, dims, sawScan, d) <==> ImageFrom(rest, dims, sawScan, d)
  {
    FramesFirstSkips(seg, rest, dims);
    assert forall s :: s in [seg] + rest <==> s == seg || s in rest;
  }

  // ---------- what the whole file should give ----------

  ghost predicate HasImage(file: seq<byte>, d: Dimensions) {
    exists doc :: IsJpeg(file, doc, d)
  }

  ghost predicate NoImage(file: seq<byte>) {
    forall d :: !HasImage(file, d)
  }

  ghost function Expected(file: seq<byte>): Option<Dimensions> {
    if START <= file then Finish(Read(file[2..]), None, false) else None
  }

  lemma DocumentIsUnique(file: seq<byte>, a: Document, d: Dimensions, b: Document, e: Dimensions)
    requires IsJpeg(file, a, d) && IsJpeg(file, b, e)
    ensures a == b && d == e
  {
    assert file[2..] == PrintFrom(a) == PrintFrom(b);
    ReadOfPrint(a);
    ReadOfPrint(b);
    RunMeansImage(a.segments, None, false, d);
    RunMeansImage(b.segments, None, false, e);
  }

  lemma PrintIsExpected(file: seq<byte>, doc: Document, d: Dimensions)
    requires IsJpeg(file, doc, d)
    ensures Expected(file) == Some(d)
  {
    assert file[2..] == PrintFrom(doc);
    ReadOfPrint(doc);
    RunMeansImage(doc.segments, None, false, d);
  }

  lemma ExpectedIsPrint(file: seq<byte>, d: Dimensions)
    requires Expected(file) == Some(d)
    ensures HasImage(file, d)
  {
    PrintOfRead(file[2..]);
    var doc := Read(file[2..]).value;
    RunMeansImage(doc.segments, None, false, d);
    assert file == START + file[2..];
    assert IsJpeg(file, doc, d);
  }

  /** A document always closes with the two bytes of EOI. */
  lemma {:induction false} DocumentEnds(d: Document)
    requires d.Legal()
    ensures var s := PrintFrom(d); |s| >= 2 && s[|s| - 2..] == [0xFF, EOI]
    decreases |d.segments|
  {
    if d.segments != [] {
      DocumentEnds(Rest(d));
      PrintSplits(d);
      var s, t := PrintFrom(d), PrintFrom(Rest(d));
      assert d.segments[0].Legal();
      assert s == PrintSegment(d.segments[0]) + t;
    } else {
      var s := Marker(d.fill, EOI);
      assert s == Fill(d.fill + 1) + [EOI];
    }
  }

  // ---------- the loops ----------

  method SkipFill(file: seq<byte>, start: nat) returns (offset: nat)
    requires start <= |file|
    ensures offset == start + FillLength(file[start..]) <= |file|
  {
    offset := start;
    while offset < |file| && file[offset] == 0xFF
      invariant start <= offset <= |file|
      invariant FillLength(file[start..]) == offset - start + FillLength(file[offset..])
    {
      assert file[offset..][1..] == file[offset + 1..];
      offset := offset + 1;
    }
  }

  /** From one 0xFF byte over any further ones to the marker byte behind them. */
  method SkipToMarker(file: seq<byte>, offset: nat) returns (m: Option<byte>, next: nat, ghost fill: nat)
    requires offset < |file| && file[offset] == 0xFF
    ensures offset < next <= |file| && fill == FillLength(file[offset..][1..])
    ensures var t := file[offset..][1 + fill..];
            if m.None? then t == [] && next == |file|
            else t != [] && m.value == t[0] && file[next..] == t[1..]
  {
    next := SkipFill(file, offset + 1);
    fill := next - offset - 1;
    assert file[offset..][1..] == file[offset + 1..];
    assert file[offset..][1 + fill..] == file[next..];
    if next >= |file| {
      return None, next, fill;
    }
    assert file[next..][1..] == file[next + 1..];
    return Some(file[next]), next + 1, fill;
  }

  ghost function Glue(es: seq<Item>, e: Entropy): Entropy {
    e.(items := es + e.items)
  }

  /** One round of the entropy loop reads one item or the marker that ends the scan. */
  lemma GlueOne(es: seq<Item>, e: Item, rest: Entropy)
    ensures Glue(es, Before(e, rest)) == Glue(es + [e], rest)
    ensures CarriesData(es + [e]) <==> CarriesData(es) || !e.Restart?
  {
    assert es + ([e] + rest.items) == es + [e] + rest.items;
    assert forall x :: x in es + [e] <==> x in es || x == e;
  }

  method ScanEntropy(file: seq<byte>, start: nat)
      returns (entropyBytes: nat, pending: Option<byte>, offset: nat, ghost fill: nat)
    requires start <= |file|
    ensures start <= offset <= |file|
    ensures var e := ReadItems(file[start..]);
            if pending.None? then e.tail.None? && offset == |file|
            else
              && start < offset
              && e.tail == Some(Tail(fill, pending.value, file[offset..]))
              && (entropyBytes > 0 <==> CarriesData(e.items))
  {
    entropyBytes, pending, offset, fill := 0, None, start, 0;
    ghost var es: seq<Item> := [];
    assert Glue([], ReadItems(file[start..])) == ReadItems(file[start..]);
    while offset < |file|
      invariant start <= offset <= |file|
      invariant ReadItems(file[start..]) == Glue(es, ReadItems(file[offset..]))
      invariant entropyBytes > 0 <==> CarriesData(es)
    {
      var value := file[offset];
      if value != 0xFF {
        assert file[offset..][1..] == file[offset + 1..];
        offset := offset + 1;
        GlueOne(es, Raw(value), ReadItems(file[offset..]));
        es := es + [Raw(value)];
        entropyBytes := entropyBytes + 1;
        continue;
      }
      var m;
      ghost var n;
      m, offset, n := SkipToMarker(file, offset);
      if m.None? {
        return 0, None, offset, 0;
      }
      var entropyMarker := m.value;
      if entropyMarker == 0x00 {
        GlueOne(es, Stuffed(n), ReadItems(file[offset..]));
        es := es + [Stuffed(n)];
        entropyBytes := entropyBytes + 1;
        continue;
      }
      if Restarts(entropyMarker) {
        GlueOne(es, Restart(n, entropyMarker), ReadItems(file[offset..]));
        es := es + [Restart(n, entropyMarker)];
        continue;
      }
      assert Glue(es, Entropy([], Some(Tail(n, entropyMarker, file[offset..])))).items == es;
      return entropyBytes, Some(entropyMarker), offset, n;
    }
  }

  /** The document whose first marker is pending, or that starts at the next byte. */
  ghost function Ahead(pending: Option<byte>, fill: nat, s: seq<byte>): Option<Document> {
    if pending.None? then Read(s) else ReadMarker(fill, pending.value, s)
  }

  method NextMarker(file: seq<byte>, offset: nat) returns (m: Option<byte>, next: nat, ghost fill: nat)
    requires offset < |file|
    ensures offset <= next <= |file|
    ensures if m.None? then Read(file[offset..]).None?
            else offset < next && Read(file[offset..]) == ReadMarker(fill, m.value, file[next..])
  {
    if file[offset] != 0xFF {
      return None, offset, 0;
    }
    m, next, fill := SkipToMarker(file, offset);
  }

  /** A segment is its two-byte length, which counts itself, and the data up to that length. */
  ghost predicate SegmentFits(s: seq<byte>) {
    |s| >= 2 && 2 <= Be16(s[..2]) <= |s|
  }

  method ReadSegment(file: seq<byte>, offset: nat) returns (data: Option<seq<byte>>, end: nat)
    requires offset <= |file|
    ensures data.Some? <==> SegmentFits(file[offset..])
    ensures data.Some? ==>
      && end == offset + Be16(file[offset..][..2]) == offset + |data.value| + 2 <= |file|
      && data.value == file[offset..][2..|data.value| + 2]
      && file[end..] == file[offset..][|data.value| + 2..]
  {
    if offset + 2 > |file| {
      return None, offset;
    }
    assert file[offset..][..2] == file[offset..offset + 2];
    var segmentLength := Be16(file[offset..offset + 2]);
    end := offset + segmentLength;
    if segmentLength < 2 || end > |file| {
      return None, offset;
    }
    return Some(file[offset + 2..end]), end;
  }

  /** The checks on a start-of-frame segment against the dimensions seen so far. */
  method CheckFrame(data: seq<byte>, dims: Option<Dimensions>) returns (r: Option<Dimensions>)
    ensures r == if FrameHeaderValid(data) && (dims.Some? ==> dims.value == FrameDimensions(data))
                 then Some(FrameDimensions(data)) else None
  {
    var segmentLength := |data| + 2;
    if segmentLength < 8 {
      return None;
    }
    var height, width, componentCount := Be16(data[1..3]), Be16(data[3..5]), data[5];
    if width == 0 || height == 0 || componentCount == 0 || segmentLength != 8 + 3 * componentCount as int {
      return None;
    }
    if dims.Some? && dims.value != Dimensions(width, height) {
      return None;
    }
    return Some(Dimensions(width, height));
  }

  method CheckScanHeader(data: seq<byte>) returns (ok: bool)
    ensures ok <==> ScanHeaderValid(data)
  {
    var segmentLength := |data| + 2;
    if segmentLength < 8 {
      return false;
    }
    var scanComponents := data[0];
    return scanComponents != 0 && segmentLength == 6 + 2 * scanComponents as int;
  }

  /** The scanner's variables between two rounds. */
  datatype State = State(offset: nat, dims: Option<Dimensions>, sawScan: bool, pending: Option<byte>) {
    /** The outcome still possible from here, given the extra fill bytes of the marker just read. */
    ghost function Outcome(file: seq<byte>, fill: nat): Option<Dimensions>
      requires offset <= |file|
    {
      Finish(Ahead(pending, fill, file[offset..]), dims, sawScan)
    }
  }

  /** A segment with a length: a table, a frame header, or a scan with its entropy data. */
  method ScanSegment(file: seq<byte>, marker: byte, st: State, ghost fill: nat)
      returns (next: Option<State>, ghost nextFill: nat)
    requires st.offset <= |file| && st.pending.None?
    requires !Invalid(marker) && marker != EOI && marker != TEM
    ensures next.Some? ==> st.offset < next.value.offset <= |file|
    ensures Finish(ReadMarker(fill, marker, file[st.offset..]), st.dims, st.sawScan)
         == if next.None? then None else next.value.Outcome(file, nextFill)
  {
    var data, segmentEnd := ReadSegment(file, st.offset);
    if data.None? {
      return None, 0;
    }
    if marker != SOS {
      TableStep(fill, marker, file[st.offset..], st.dims, st.sawScan);
      var dims := st.dims;
      if StartsFrame(marker) {
        dims := CheckFrame(data.value, dims);
        if dims.None? {
          return None, 0;
        }
      }
      return Some(State(segmentEnd, dims, st.sawScan, None)), 0;
    }
    ScanStep(fill, file[st.offset..], st.dims, st.sawScan);
    var headerValid := CheckScanHeader(data.value);
    if st.dims.None? || !headerValid {
      return None, 0;
    }
    var entropyBytes, pending, offset, f := ScanEntropy(file, segmentEnd);
    if pending.None? || entropyBytes == 0 {
      return None, 0;
    }
    return Some(State(offset, st.dims, true, pending)), f;
  }

  /**
   The scanner. A marker that ends a scan stays pending for one round without using up a byte, so
   a round makes progress either in the file or by clearing the pending marker.
   */
  method ScanJpeg(file: seq<byte>) returns (r: Option<Dimensions>)
    ensures r == Expected(file)
  {
    EndsAreNecessary(file);
    if !(START <= file) || file[|file| - 2..] != [0xFF, EOI] {
      return None;
    }
    var st := State(2, None, false, None);
    ghost var fill: nat := 0;
    while st.offset < |file| || st.pending.Some?
      invariant 2 <= st.offset <= |file|
      invariant st.Outcome(file, fill) == Expected(file)
      decreases |file| - st.offset, if st.pending.Some? then 1 else 0
    {
      var marker;
      if st.pending.None? {
        var m, offset;
        m, offset, fill := NextMarker(file, st.offset);
        if m.None? {
          return None;
        }
        marker, st := m.value, st.(offset := offset);
      } else {
        marker, st := st.pending.value, st.(pending := None);
      }
      if Invalid(marker) {
        return None;
      }
      if marker == EOI {
        EndStep(fill, file[st.offset..], st.dims, st.sawScan);
        if st.offset != |file| || st.dims.None? || !st.sawScan {
          return None;
        }
        return st.dims;
      }
      if marker == TEM {
        StandaloneStep(fill, file[st.offset..], st.dims, st.sawScan);
        continue;
      }
      var next;
      next, fill := ScanSegment(file, marker, st, fill);
      if next.None? {
        return None;
      }
      st := next.value;
    }
    return None;
  }

  method ValidateJpeg(file: seq<byte>) returns (r: Option<Dimensions>)
    ensures r.Some? ==> HasImage(file, r.value)
    ensures r.None? ==> NoImage(file)
  {
    r := ScanJpeg(file);
    if r.Some? {
      ExpectedIsPrint(file, r.value);
    } else {
      forall d | HasImage(file, d)
        ensures false
      {
        var doc :| IsJpeg(file, doc, d);
        PrintIsExpected(file, doc, d);
      }
    }
  }

  lemma EndsAreNecessary(file: seq<byte>)
    ensures Expected(file).Some? ==> START <= file && file[|file| - 2..] == [0xFF, EOI]
  {
    if Expected(file).Some? {
      PrintOfRead(file[2..]);
      DocumentEnds(Read(file[2..]).value);
      var t := file[2..];
      assert file[|file| - 2..] == t[|t| - 2..];
    }
  }

  // ---------- one round of the scanner on the document ahead ----------

  lemma EndStep(fill: nat, s: seq<byte>, dims: Option<Dimensions>, sawScan: bool)
    ensures Finish(ReadMarker(fill, EOI, s), dims, sawScan) == if s == [] && sawScan then dims else None
  {
  }

  lemma StandaloneStep(fill: nat, s: seq<byte>, dims: Option<Dimensions>, sawScan: bool)
    ensures Finish(ReadMarker(fill, TEM, s), dims, sawScan) == Finish(Read(s), dims, sawScan)
  {
    FinishOnto(Standalone(fill), Read(s), dims, sawScan);
  }

  lemma FinishOnto(seg: Segment, rest: Option<Document>, dims: Option<Dimensions>, sawScan: bool)
    ensures Finish(Onto(seg, rest), dims, sawScan)
         == if rest.None? then None else Run([seg] + rest.value.segments, dims, sawScan)
    ensures rest.Some? ==> ([seg] + rest.value.segments)[1..] == rest.value.segments
  {
  }

  lemma TableStep(fill: nat, m: byte, s: seq<byte>, dims: Option<Dimensions>, sawScan: bool)
    requires !Invalid(m) && m !in {TEM, EOI, SOS} && SegmentFits(s)
    ensures var data, rest := s[2..Be16(s[..2])], Read(s[Be16(s[..2])..]);
            Finish(ReadMarker(fill, m, s), dims, sawScan)
            == (if !StartsFrame(m) then Finish(rest, dims, sawScan)
                else if FrameHeaderValid(data) && (dims.Some? ==> dims.value == FrameDimensions(data))
                then Finish(rest, Some(FrameDimensions(data)), sawScan) else None)
  {
    var data, rest := s[2..Be16(s[..2])], Read(s[Be16(s[..2])..]);
    FinishOnto(Table(fill, m, data), rest, dims, sawScan);
  }

  lemma ScanStep(fill: nat, s: seq<byte>, dims: Option<Dimensions>, sawScan: bool)
    requires SegmentFits(s)
    ensures var data, e := s[2..Be16(s[..2])], ReadItems(s[Be16(s[..2])..]);
            Finish(ReadMarker(fill, SOS, s), dims, sawScan)
            == (if e.tail.None? || dims.None? || !ScanHeaderValid(data) || !CarriesData(e.items) then None
                else Finish(ReadMarker(e.tail.value.fill, e.tail.value.marker, e.tail.value.rest), dims, true))
  {
    var data, e := s[2..Be16(s[..2])], ReadItems(s[Be16(s[..2])..]);
    if e.tail.Some? {
      var rest := ReadMarker(e.tail.value.fill, e.tail.value.marker, e.tail.value.rest);
      FinishOnto(Scan(fill, data, e.items), rest, dims, sawScan);
    }
  }
}
