/** Byte strings, fixed-width integers and the option type shared by every module. */
module Bytes {

  datatype Option<+T> = None | Some(value: T)

  /** What every image checker returns for an accepted file. */
  datatype Dimensions = Dimensions(width: nat, height: nat)

  type byte = b: int | 0 <= b < 256

  const U16: nat := 0x1_0000
  const U24: nat := 0x100_0000
  const U32: nat := 0x1_0000_0000

  function Be16(s: seq<byte>): (n: nat)
    requires |s| == 2
    ensures n < U16
  {
    256 * s[0] as int + s[1]
  }

  function PutBe16(n: nat): (s: seq<byte>)
    requires n < U16
    ensures |s| == 2 && Be16(s) == n
  {
    [n / 256, n % 256]
  }

  function Be32(s: seq<byte>): (n: nat)
    requires |s| == 4
    ensures n < U32
  {
    0x100_0000 * s[0] as int + 0x1_0000 * s[1] as int + 256 * s[2] as int + s[3]
  }

  function PutBe32(n: nat): (s: seq<byte>)
    requires n < U32
    ensures |s| == 4 && Be32(s) == n
  {
    var (a, b, c) := (n / 256, n / 256 / 256, n / 256 / 256 / 256);
    [c, b % 256, a % 256, n % 256]
  }

  function Le16(s: seq<byte>): (n: nat)
    requires |s| == 2
    ensures n < U16
  {
    s[0] + 256 * s[1] as int
  }

  function Le24(s: seq<byte>): (n: nat)
    requires |s| == 3
    ensures n < U24
  {
    s[0] + 256 * s[1] as int + 0x1_0000 * s[2] as int
  }

  function Le32(s: seq<byte>): (n: nat)
    requires |s| == 4
    ensures n < U32
  {
    s[0] + 256 * s[1] as int + 0x1_0000 * s[2] as int + 0x100_0000 * s[3] as int
  }

  function PutLe16(n: nat): (s: seq<byte>)
    requires n < U16
    ensures |s| == 2 && Le16(s) == n
  {
    [n % 256, n / 256]
  }

  function PutLe24(n: nat): (s: seq<byte>)
    requires n < U24
    ensures |s| == 3 && Le24(s) == n
  {
    var (a, b) := (n / 256, n / 256 / 256);
    [n % 256, a % 256, b]
  }

  function PutLe32(n: nat): (s: seq<byte>)
    requires n < U32
    ensures |s| == 4 && Le32(s) == n
  {
    var (a, b, c) := (n / 256, n / 256 / 256, n / 256 / 256 / 256);
    [n % 256, a % 256, b % 256, c]
  }

  lemma PutBe16Inverse(s: seq<byte>)
    requires |s| == 2
    ensures PutBe16(Be16(s)) == s
  {
    assert PutBe16(Be16(s))[0] == s[0];
  }

  lemma PutBe32Inverse(s: seq<byte>)
    requires |s| == 4
    ensures PutBe32(Be32(s)) == s
  {
    var n := Be32(s);
    assert n / 256 == Be32([0, s[0], s[1], s[2]]) && n % 256 == s[3];
    assert n / 256 / 256 == Be16([s[0], s[1]]) && n / 256 % 256 == s[2];
  }

  lemma PutLe32Inverse(s: seq<byte>)
    requires |s| == 4
    ensures PutLe32(Le32(s)) == s
  {
    var n := Le32(s);
    assert n / 256 == Le24(s[1..]) && n % 256 == s[0];
    assert n / 256 / 256 == Le16(s[2..]) && n / 256 % 256 == s[1];
  }
}
