/**
 The JPEG container checker: a marker scanner with a pending marker and byte-stuffed entropy data,
 and the grammar of the files that it accepts (Annex B of ITU-T T.81).
 */
module Jpeg {
  import opened Bytes

  const START: seq<byte> := [0xFF, 0xD8]
  const TEM: byte := 0x01
  const EOI: byte := 0xD9
  const SOS: byte := 0xDA

  predicate StartsFrame(m: byte) {
    0xC0 <= m <= 0xCF && m != 0xC4 && m != 0xC8 && m != 0xCC
  }

  predicate Restarts(m: byte) {
    0xD0 <= m <= 0xD7
  }

  /** 0x00, SOI and the restart markers never stand where a segment must begin. */
  predicate Invalid(m: byte) {
    m == 0x00 || m == 0xD8 || Restarts(m)
  }

  // ---------- the grammar ----------

  /** One unit of entropy-coded data; `fill` counts the optional extra 0xFF bytes of a marker. */
  datatype Item = Raw(value: byte) | Stuffed(fill: nat) | Restart(fill: nat, marker: byte) {
    predicate Legal() {
      match this
      case Raw(v) => v != 0xFF
      case Stuffed(_) => true
      case Restart(_, m) => Restarts(m)
    }
  }

  datatype Segment =
    | Standalone(fill: nat)
    | Table(fill: nat, marker: byte, data: seq<byte>)
    | Scan(fill: nat, data: seq<byte>, entropy: seq<Item>)
  {
    ghost predicate Legal() {
      match this
      case Standalone(_) => true
      case Table(_, m, data) => !Invalid(m) && m !in {TEM, EOI, SOS, 0xFF} && |data| + 2 < U16
      case Scan(_, data, entropy) => |data| + 2 < U16 && forall e <- entropy :: e.Legal()
    }

    predicate Frame() {
      Table? && StartsFrame(marker)
    }
  }

  datatype Document = Document(segments: seq<Segment>, fill: nat) {
    ghost predicate Legal() {
      forall s <- segments :: s.Legal()
    }
  }

  function Marker(fill: nat, m: byte): (s: seq<byte>)
    ensures |s| == fill + 2 && s[0] == 0xFF
  {
    Fill(fill + 1) + [m]
  }

  function Fill(n: nat): (s: seq<byte>)
    ensures |s| == n && forall i :: 0 <= i < n ==> s[i] == 0xFF
  {
    seq(n, _ => 0xFF)
  }

  function PrintItem(e: Item): seq<byte> {
    match e
    case Raw(v) => [v]
    case Stuffed(fill) => Marker(fill, 0x00)
    case Restart(fill, m) => Marker(fill, m)
  }

  function PrintItems(es: seq<Item>): seq<byte> {
    if es == [] then [] else PrintItem(es[0]) + PrintItems(es[1..])
  }

  function PrintSegment(s: Segment): seq<byte>
    requires !s.Standalone? ==> |s.data| + 2 < U16
  {
    match s
    case Standalone(fill) => Marker(fill, TEM)
    case Table(fill, m, data) => Marker(fill, m) + PutBe16(|data| + 2) + data
    case Scan(fill, data, es) => Marker(fill, SOS) + PutBe16(|data| + 2) + data + PrintItems(es)
  }

  ghost function PrintFrom(d: Document): seq<byte>
    requires d.Legal()
    decreases |d.segments|
  {
    if d.segments == [] then Marker(d.fill, EOI)
    else
      assert d.segments[0].Legal();
      PrintSegment(d.segments[0]) + PrintFrom(d.(segments := d.segments[1..]))
  }

  ghost function Print(d: Document): seq<byte>
    requires d.Legal()
  {
    START + PrintFrom(d)
  }

  // ---------- which documents are images ----------

  /** A frame header: precision, height, width, component count, three bytes for each component. */
  predicate FrameHeaderValid(data: seq<byte>) {
    && |data| >= 6
    && Be16(data[1..3]) > 0 && Be16(data[3..5]) > 0 && data[5] > 0
    && |data| == 6 + 3 * data[5] as int
  }

  function FrameDimensions(data: seq<byte>): Dimensions
    requires |data| >= 6
  {
    Dimensions(Be16(data[3..5]), Be16(data[1..3]))
  }

  /** A frame header: its precision, the lines before the samples of a line, and three bytes for each component. */
  function PutFrameHeader(precision: byte, d: Dimensions, components: seq<byte>): (data: seq<byte>)
    requires d.width < U16 && d.height < U16 && |components| % 3 == 0 && |components| / 3 < 256
    ensures |data| == 6 + |components|
  {
    [precision] + PutBe16(d.height) + PutBe16(d.width) + [|components| / 3] + components
  }

  /** Each dimension is read from where it is written, and the header is valid exactly with a size and a component. */
  lemma FrameHeaderOfPut(precision: byte, d: Dimensions, components: seq<byte>)
    requires d.width < U16 && d.height < U16 && |components| % 3 == 0 && |components| / 3 < 256
    ensures var data := PutFrameHeader(precision, d, components);
            && FrameDimensions(data) == d
            && (FrameHeaderValid(data) <==> d.width > 0 && d.height > 0 && components != [])
  {
    var data := PutFrameHeader(precision, d, components);
    assert data[1..3] == PutBe16(d.height) && data[3..5] == PutBe16(d.width) && data[5] as int == |components| / 3;
  }

  /** Every valid frame header is one that was put so. */
  lemma PutOfFrameHeader(data: seq<byte>)
    requires FrameHeaderValid(data)
    ensures var d := FrameDimensions(data);
            && d.width < U16 && d.height < U16 && |data[6..]| % 3 == 0 && |data[6..]| / 3 < 256
            && PutFrameHeader(data[0], d, data[6..]) == data
  {
    PutBe16Inverse(data[1..3]);
    PutBe16Inverse(data[3..5]);
  }

  predicate ScanHeaderValid(data: seq<byte>) {
    |data| >= 6 && data[0] > 0 && |data| == 4 + 2 * data[0] as int
  }

  ghost predicate CarriesData(es: seq<Item>) {
    exists e <- es :: !e.Restart?
  }

  /** Every frame header agrees on d, a frame stands before every scan, and some scan exists. */
  ghost predicate IsImage(segments: seq<Segment>, d: Dimensions) {
    && (forall s <- segments :: s.Frame() ==> FrameHeaderValid(s.data) && FrameDimensions(s.data) == d)
    && (forall s <- segments :: s.Scan? ==> ScanHeaderValid(s.data) && CarriesData(s.entropy))
    && (forall i :: 0 <= i < |segments| && segments[i].Scan? ==> exists j :: 0 <= j < i && segments[j].Frame())
    && (exists s <- segments :: s.Scan?)
  }

  ghost predicate IsJpeg(file: seq<byte>, doc: Document, d: Dimensions) {
    doc.Legal() && file == Print(doc) && IsImage(doc.segments, d)
  }

  // ---------- reading a document back ----------

  function FillLength(s: seq<byte>): (n: nat)
    ensures n <= |s|
  {
    if s == [] || s[0] != 0xFF then 0 else 1 + FillLength(s[1..])
  }

  /** The marker that ended a run of entropy data, and the bytes behind it. */
  datatype Tail = Tail(fill: nat, marker: byte, rest: seq<byte>)

  datatype Entropy = Entropy(items: seq<Item>, tail: Option<Tail>)

  function Before(e: Item, rest: Entropy): Entropy {
    rest.(items := [e] + rest.items)
  }

  function ReadItems(s: seq<byte>): (r: Entropy)
    ensures r.tail.Some? ==> |r.tail.value.rest| < |s|
  {
    if s == [] then Entropy([], None)
    else if s[0] != 0xFF then Before(Raw(s[0]), ReadItems(s[1..]))
    else
      var n := FillLength(s[1..]);
      var t := s[1 + n..];
      if t == [] then Entropy([], None)
      else if t[0] == 0x00 then Before(Stuffed(n), ReadItems(t[1..]))
      else if Restarts(t[0]) then Before(Restart(n, t[0]), ReadItems(t[1..]))
      else Entropy([], Some(Tail(n, t[0], t[1..])))
  }

  function Onto(s: Segment, rest: Option<Document>): Option<Document> {
    if rest.None? then None else Some(rest.value.(segments := [s] + rest.value.segments))
  }

  /** What follows START. */
  function Read(s: seq<byte>): Option<Document>
    decreases |s|, 0
  {
    if s == [] || s[0] != 0xFF then None
    else
      var n := FillLength(s[1..]);
      var t := s[1 + n..];
      if t == [] then None else ReadMarker(n, t[0], t[1..])
  }

  /** What follows a marker m that had `fill` extra fill bytes. */
  function ReadMarker(fill: nat, m: byte, s: seq<byte>): Option<Document>
    decreases |s|, 1
  {
    if Invalid(m) then None
    else if m == EOI then (if s == [] then Some(Document([], fill)) else None)
    else if m == TEM then Onto(Standalone(fill), Read(s))
    else if |s| < 2 || Be16(s[..2]) < 2 || Be16(s[..2]) > |s| then None
    else
      var data, rest := s[2..Be16(s[..2])], s[Be16(s[..2])..];
      if m != SOS then Onto(Table(fill, m, data), Read(rest))
      else
        var e := ReadItems(rest);
        if e.tail.None? then None
        else
          var Tail(f, next, behind) := e.tail.value;
          Onto(Scan(fill, data, e.items), ReadMarker(f, next, behind))
  }

  lemma {:induction false} FillLengthOfFill(n: nat, m: byte, rest: seq<byte>)
    requires m != 0xFF
    ensures FillLength(Fill(n) + [m] + rest) == n
    ensures (Fill(n) + [m] + rest)[n..] == [m] + rest
  {
    var s := Fill(n) + [m] + rest;
    if n > 0 {
      FillLengthOfFill(n - 1, m, rest);
      assert s[1..] == Fill(n - 1) + [m] + rest;
    }
  }

  lemma MarkerSplits(fill: nat, m: byte, rest: seq<byte>)
    requires m != 0xFF
    ensures var s := Marker(fill, m) + rest;
            && FillLength(s[1..]) == fill
            && s[1 + fill..] == [m] + rest
  {
    var s := Marker(fill, m) + rest;
    assert s[1..] == Fill(fill) + [m] + rest;
    FillLengthOfFill(fill, m, rest);
    assert s[1 + fill..] == s[1..][fill..];
  }

  lemma {:induction false} FillOfFillLength(s: seq<byte>)
    ensures var n := FillLength(s);
            s == Fill(n) + s[n..] && (n < |s| ==> s[n] != 0xFF)
  {
    hide Fill;
    if s != [] && s[0] == 0xFF {
      FillOfFillLength(s[1..]);
      var n := FillLength(s);
      assert s[1..][n - 1..] == s[n..];
      assert s == [0xFF] + s[1..];
      assert Fill(n) == [0xFF] + Fill(n - 1);
    } else {
      assert s == Fill(0) + s;
    }
  }

  lemma MarkerJoins(s: seq<byte>)
    requires s != [] && s[0] == 0xFF
    ensures var n := FillLength(s[1..]);
            1 + n < |s| ==> s[1 + n] != 0xFF && s == Marker(n, s[1 + n]) + s[2 + n..]
  {
    FillOfFillLength(s[1..]);
    var n := FillLength(s[1..]);
    if 1 + n < |s| {
      assert s[1..][n..] == [s[1 + n]] + s[2 + n..];
      assert s == [0xFF] + s[1..];
    }
  }

  lemma ReadItemsOfOne(e: Item, behind: seq<byte>)
    requires e.Legal()
    ensures ReadItems(PrintItem(e) + behind) == Before(e, ReadItems(behind))
  {
    match e {
      case Raw(v) =>
        assert (PrintItem(e) + behind)[1..] == behind;
      case Stuffed(fill) =>
        MarkerSplits(fill, 0x00, behind);
        assert ([0x00] + behind)[1..] == behind;
      case Restart(fill, m) =>
        MarkerSplits(fill, m, behind);
        assert ([m] + behind)[1..] == behind;
    }
  }

  lemma {:induction false} ReadItemsOfPrint(es: seq<Item>, fill: nat, m: byte, rest: seq<byte>)
    requires forall e <- es :: e.Legal()
    requires m != 0x00 && m != 0xFF && !Restarts(m)
    ensures ReadItems(PrintItems(es) + (Marker(fill, m) + rest)) == Entropy(es, Some(Tail(fill, m, rest)))
  {
    var end := Marker(fill, m) + rest;
    if es == [] {
      assert PrintItems(es) + end == end;
      MarkerSplits(fill, m, rest);
      assert ([m] + rest)[1..] == rest;
    } else {
      var behind := PrintItems(es[1..]) + end;
      assert PrintItems(es) + end == PrintItem(es[0]) + behind;
      ReadItemsOfOne(es[0], behind);
      ReadItemsOfPrint(es[1..], fill, m, rest);
      assert es == [es[0]] + es[1..];
    }
  }

  ghost predicate Joins(r: Entropy, s: seq<byte>) {
    && (forall e <- r.items :: e.Legal())
    && (r.tail.Some? ==>
         var Tail(fill, m, rest) := r.tail.value;
         && m != 0x00 && m != 0xFF && !Restarts(m)
         && s == PrintItems(r.items) + (Marker(fill, m) + rest))
  }

  lemma BeforeJoins(e: Item, r: Entropy, s: seq<byte>)
    requires e.Legal() && Joins(r, s)
    ensures Joins(Before(e, r), PrintItem(e) + s)
  {
    assert Before(e, r).items[1..] == r.items;
  }

  lemma {:induction false} ItemsOfReadItems(s: seq<byte>)
    ensures Joins(ReadItems(s), s)
    decreases |s|
  {
    if s != [] && s[0] != 0xFF {
      ItemsOfReadItems(s[1..]);
      BeforeJoins(Raw(s[0]), ReadItems(s[1..]), s[1..]);
      assert s == [s[0]] + s[1..];
    } else if s != [] {
      MarkerJoins(s);
      var n := FillLength(s[1..]);
      if 1 + n < |s| {
        var m, rest := s[1 + n], s[2 + n..];
        assert s[1 + n..][1..] == rest;
        ItemsOfReadItems(rest);
        if m == 0x00 {
          BeforeJoins(Stuffed(n), ReadItems(rest), rest);
        } else if Restarts(m) {
          BeforeJoins(Restart(n, m), ReadItems(rest), rest);
        } else {
          assert PrintItems([]) + (Marker(n, m) + rest) == s;
        }
      }
    }
  }

  function MarkerOf(s: Segment): byte {
    match s case Standalone(_) => TEM case Table(_, m, _) => m case Scan(_, _, _) => SOS
  }

  ghost function Rest(d: Document): Document
    requires d.Legal() && d.segments != []
    ensures Rest(d).Legal()
  {
    d.(segments := d.segments[1..])
  }

  ghost function FirstMarker(d: Document): (m: byte)
    requires d.Legal()
    ensures !Invalid(m) && m != 0xFF
  {
    if d.segments == [] then EOI else assert d.segments[0].Legal(); MarkerOf(d.segments[0])
  }

  ghost function FirstFill(d: Document): nat
    requires d.Legal()
  {
    if d.segments == [] then d.fill else d.segments[0].fill
  }

  /** What a document prints behind its first marker. */
  ghost function Behind(d: Document): seq<byte>
    requires d.Legal()
  {
    if d.segments == [] then []
    else
      assert d.segments[0].Legal();
      match d.segments[0]
      case Standalone(_) => PrintFrom(Rest(d))
      case Table(_, _, data) => PutBe16(|data| + 2) + data + PrintFrom(Rest(d))
      case Scan(_, data, es) => PutBe16(|data| + 2) + data + (PrintItems(es) + PrintFrom(Rest(d)))
  }

  /** A segment prints its marker, and the rest behind it. */
  lemma SegmentPrintSplits(s: Segment, rest: seq<byte>)
    requires !s.Standalone? ==> |s.data| + 2 < U16
    ensures PrintSegment(s) + rest == Marker(s.fill, MarkerOf(s)) +
            match s
            case Standalone(_) => rest
            case Table(_, _, data) => PutBe16(|data| + 2) + data + rest
            case Scan(_, data, es) => PutBe16(|data| + 2) + data + (PrintItems(es) + rest)
  {
  }

  lemma PrintSplits(d: Document)
    requires d.Legal()
    ensures PrintFrom(d) == Marker(FirstFill(d), FirstMarker(d)) + Behind(d)
  {
    hide PrintSegment, Marker, PutBe16, PrintItems;
    if d.segments != [] {
      assert d.segments[0].Legal();
      assert Rest(d) == d.(segments := d.segments[1..]);
      SegmentPrintSplits(d.segments[0], PrintFrom(Rest(d)));
    } else {
      assert Marker(d.fill, EOI) + [] == Marker(d.fill, EOI);
    }
  }

  lemma SegmentSplits(data: seq<byte>, behind: seq<byte>)
    requires |data| + 2 < U16
    ensures var s := PutBe16(|data| + 2) + data + behind;
            && Be16(s[..2]) == |data| + 2 <= |s|
            && s[2..|data| + 2] == data && s[|data| + 2..] == behind
  {
    var s := PutBe16(|data| + 2) + data + behind;
    assert s[..2] == PutBe16(|data| + 2);
  }

  /** Reading undoes printing, so a file is the print of at most one document. */
  lemma {:induction false} ReadOfPrint(d: Document)
    requires d.Legal()
    ensures Read(PrintFrom(d)) == Some(d)
    decreases |d.segments|, 1
  {
    var m := FirstMarker(d);
    PrintSplits(d);
    MarkerSplits(FirstFill(d), m, Behind(d));
    assert ([m] + Behind(d))[1..] == Behind(d);
    ReadMarkerOfPrint(d);
  }

  lemma {:induction false} ReadMarkerOfPrint(d: Document)
    requires d.Legal()
    ensures ReadMarker(FirstFill(d), FirstMarker(d), Behind(d)) == Some(d)
    decreases |d.segments|, 0
  {
    if d.segments != [] {
      var seg, rest := d.segments[0], Rest(d);
      assert seg.Legal();
      assert d.segments == [seg] + rest.segments;
      match seg {
        case Standalone(_) =>
          ReadOfPrint(rest);
        case Table(_, _, data) =>
          SegmentSplits(data, PrintFrom(rest));
          ReadOfPrint(rest);
        case Scan(_, data, es) =>
          ReadScanOfPrint(data, es, rest);
          ReadMarkerOfPrint(rest);
      }
    }
  }

  lemma ReadScanOfPrint(data: seq<byte>, es: seq<Item>, rest: Document)
    requires |data| + 2 < U16 && (forall e <- es :: e.Legal()) && rest.Legal()
    ensures var s := PutBe16(|data| + 2) + data + (PrintItems(es) + PrintFrom(rest));
            && Be16(s[..2]) == |data| + 2 <= |s| && s[2..|data| + 2] == data
            && ReadItems(s[|data| + 2..])
               == Entropy(es, Some(Tail(FirstFill(rest), FirstMarker(rest), Behind(rest))))
  {
    SegmentSplits(data, PrintItems(es) + PrintFrom(rest));
    PrintSplits(rest);
    ReadItemsOfPrint(es, FirstFill(rest), FirstMarker(rest), Behind(rest));
  }

  lemma {:induction false} PrintOfRead(s: seq<byte>)
    requires Read(s).Some?
    ensures var d := Read(s).value; d.Legal() && PrintFrom(d) == s
    decreases |s|, 0
  {
    MarkerJoins(s);
    var n := FillLength(s[1..]);
    assert s[1 + n..][1..] == s[2 + n..];
    PrintOfReadMarker(n, s[1 + n], s[2 + n..]);
  }

  lemma {:induction false} PrintOfReadMarker(fill: nat, m: byte, s: seq<byte>)
    requires ReadMarker(fill, m, s).Some? && m != 0xFF
    ensures var d := ReadMarker(fill, m, s).value; d.Legal() && PrintFrom(d) == Marker(fill, m) + s
    decreases |s|, 1
  {
    if m == EOI {
      assert Marker(fill, m) + s == Marker(fill, m);
    } else if m == TEM {
      PrintOfRead(s);
      PrintOfOnto(Standalone(fill), Read(s).value);
    } else {
      var size := Be16(s[..2]);
      var data, rest := s[2..size], s[size..];
      SegmentJoins(s);
      if m != SOS {
        PrintOfRead(rest);
        PrintOfOnto(Table(fill, m, data), Read(rest).value);
        Regroup(Marker(fill, m), PutBe16(size), data, [], rest);
      } else {
        var e := ReadItems(rest);
        ItemsOfReadItems(rest);
        var Tail(f, next, behind) := e.tail.value;
        PrintOfReadMarker(f, next, behind);
        PrintOfOnto(Scan(fill, data, e.items), ReadMarker(f, next, behind).value);
        Regroup(Marker(fill, m), PutBe16(size), data, PrintItems(e.items), Marker(f, next) + behind);
      }
    }
  }

  lemma SegmentJoins(s: seq<byte>)
    requires |s| >= 2 && 2 <= Be16(s[..2]) <= |s|
    ensures s == PutBe16(Be16(s[..2])) + s[2..Be16(s[..2])] + s[Be16(s[..2])..]
  {
    PutBe16Inverse(s[..2]);
  }

  lemma Regroup(a: seq<byte>, b: seq<byte>, c: seq<byte>, d: seq<byte>, e: seq<byte>)
    ensures (a + b + c + d) + e == a + (b + c + (d + e))
    ensures d == [] ==> (a + b + c) + e == a + (b + c + e)
  {
  }

  lemma PrintOfOnto(seg: Segment, rest: Document)
    requires seg.Legal() && rest.Legal()
    ensures var d := Onto(seg, Some(rest)).value;
            d.Legal() && PrintFrom(d) == PrintSegment(seg) + PrintFrom(rest)
  {
    var d := Onto(seg, Some(rest)).value;
    assert d.segments[1..] == rest.segments;
    assert d.(segments := d.segments[1..]) == rest;
  }
}
