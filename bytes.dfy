/** Octets, fixed-width big-endian integers and NUL-terminated C strings:
    the value level under the bitstream and box layers. */
module Bytes {

  /** One octet of a bitstream. */
  type byte = b: int | 0 <= b < 256

  /** 256 to the power `n`: the number of values an `n`-byte field holds. */
  function Pow256(n: nat): (r: nat)
    ensures r >= 1
    ensures n >= 1 ==> r >= 256
  {
    if n == 0 then 1 else 256 * Pow256(n - 1)
  }

  /** What a fixed-width writer keeps of `v`: its low `n` bytes, two's complement
      for negative values (Dafny's `%` is Euclidean, so the remainder is never negative). */
  function Truncate(v: int, n: nat): (r: nat)
    ensures r < Pow256(n)
    ensures 0 <= v < Pow256(n) ==> r == v
  {
    var m := Pow256(n);
    ModBound(v, m);
    v % m
  }

  lemma ModBound(v: int, m: int)
    requires m > 0
    ensures 0 <= v % m < m
    ensures 0 <= v < m ==> v % m == v
  {
  }

  /** `v` written most significant byte first on `n` bytes. */
  function BigEndian(v: nat, n: nat): (r: seq<byte>)
    requires v < Pow256(n)
    ensures |r| == n
    decreases n
  {
    if n == 0 then []
    else
      DivBound(v, n);
      BigEndian(v / 256, n - 1) + [v % 256]
  }

  /** The value of a big-endian byte string. */
  function FromBigEndian(s: seq<byte>): (v: nat)
    ensures v < Pow256(|s|)
  {
    if s == [] then 0 else FromBigEndian(s[..|s| - 1]) * 256 + s[|s| - 1]
  }

  lemma DivBound(v: nat, n: nat)
    requires n >= 1 && v < Pow256(n)
    ensures v / 256 < Pow256(n - 1)
  {
  }

  /** Reading back a big-endian field gives the value that was written. */
  lemma {:induction false} BigEndianRoundTrip(v: nat, n: nat)
    requires v < Pow256(n)
    ensures FromBigEndian(BigEndian(v, n)) == v
    decreases n
  {
    if n > 0 {
      DivBound(v, n);
      var s := BigEndian(v, n);
      assert s[..n - 1] == BigEndian(v / 256, n - 1);
      BigEndianRoundTrip(v / 256, n - 1);
    }
  }

  /** Writing back the value of a big-endian field gives the field. */
  lemma {:induction false} FromBigEndianRoundTrip(s: seq<byte>)
    ensures BigEndian(FromBigEndian(s), |s|) == s
  {
    if s != [] {
      var init := s[..|s| - 1];
      FromBigEndianRoundTrip(init);
      var v := FromBigEndian(s);
      assert v / 256 == FromBigEndian(init) && v % 256 == s[|s| - 1];
      assert s == init + [s[|s| - 1]];
    }
  }

  /** A 32-bit field, most significant byte first; the same bytes as `BigEndian(v, 4)`
      (see `U32IsBigEndian`), spelled out so that box headers stay cheap to reason about. */
  function U32(v: nat): (r: seq<byte>)
    requires v < 0x1_0000_0000
    ensures |r| == 4
  {
    var q1 := v / 256;
    var q2 := q1 / 256;
    [q2 / 256, q2 % 256, q1 % 256, v % 256]
  }

  /** The value of a 32-bit big-endian field. */
  function FromU32(s: seq<byte>): (v: nat)
    requires |s| == 4
    ensures v < 0x1_0000_0000
  {
    ((s[0] as nat * 256 + s[1] as nat) * 256 + s[2] as nat) * 256 + s[3] as nat
  }

  lemma U32RoundTrip(v: nat)
    requires v < 0x1_0000_0000
    ensures FromU32(U32(v)) == v
  {
    var q1 := v / 256;
    var q2 := q1 / 256;
    assert v == q1 * 256 + v % 256;
    assert q1 == q2 * 256 + q1 % 256;
    assert q2 == (q2 / 256) * 256 + q2 % 256;
  }

  lemma FromU32RoundTrip(s: seq<byte>)
    requires |s| == 4
    ensures U32(FromU32(s)) == s
  {
    var a: nat := s[0] as nat * 256 + s[1] as nat;
    var b: nat := a * 256 + s[2] as nat;
    var v: nat := b * 256 + s[3] as nat;
    DivModUnique(v, b, s[3]);
    DivModUnique(b, a, s[2]);
    DivModUnique(a, s[0], s[1]);
  }

  lemma DivModUnique(v: nat, q: nat, r: nat)
    requires r < 256 && v == q * 256 + r
    ensures v / 256 == q && v % 256 == r
  {
  }

  lemma U32IsBigEndian(v: nat)
    requires v < 0x1_0000_0000
    ensures Pow256(4) == 0x1_0000_0000 && U32(v) == BigEndian(v, 4)
  {
    assert Pow256(2) == 0x1_0000;
    var q1 := v / 256;
    var q2 := q1 / 256;
    assert BigEndian(v, 4) == BigEndian(q1, 3) + [v % 256];
    assert BigEndian(q1, 3) == BigEndian(q2, 2) + [q1 % 256];
    assert BigEndian(q2, 2) == BigEndian(q2 / 256, 1) + [q2 % 256];
  }

  /** A byte string with no NUL byte: what `strlen`, `strdup` and `strcpy` see in a C string. */
  predicate NoNul(s: seq<byte>) {
    forall i :: 0 <= i < |s| ==> s[i] != 0
  }

  /** The contents of a NUL-terminated C string (the terminator itself is not part of it). */
  type CString = s: seq<byte> | NoNul(s)

  /** The C string held by a buffer that a reader NUL-terminated: the bytes before the
      first NUL, or all of them when there is none. `|CStr(buf)|` is `strlen`. */
  function CStr(buf: seq<byte>): (r: CString)
    ensures |r| <= |buf| && r == buf[..|r|]
    ensures |r| < |buf| ==> buf[|r|] == 0
  {
    if buf == [] || buf[0] == 0 then []
    else
      var tail := CStr(buf[1..]);
      assert NoNul([buf[0]] + tail);
      [buf[0]] + tail
  }

  /** A buffer without NUL bytes is read back whole as a C string. */
  lemma {:induction false} CStrOfCString(s: CString)
    ensures CStr(s) == s
  {
    if s != [] {
      assert s[0] != 0;
      var tail: CString := s[1..];
      CStrOfCString(tail);
    }
  }
}
