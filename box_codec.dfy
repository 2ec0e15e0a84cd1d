/** Generic box framing of the ISO base media file format (ISO/IEC 14496-12,
    section 4.2): a 32-bit big-endian size that counts the whole box, a four-character
    type code, then the payload. This is the part of the box library that the WebVTT
    boxes rely on (`gf_isom_box_write_header`, `gf_isom_box_get_size`,
    `gf_isom_parse_box`, `gf_isom_read_box_list`). */
module BoxCodec {
  import opened Wrappers
  import opened Bytes
  import opened BitStream

  /** A four-character code packed big-endian into 32 bits. */
  type FourCC = x: nat | x < 0x1_0000_0000

  /** Size of the compact header: 32-bit size then 32-bit type. */
  const HeaderSize: nat := 8
  /** Largest size the 32-bit size field can hold. */
  const MaxBoxSize: nat := 0xFFFF_FFFF

  // Box types of the WebVTT carriage (ISO/IEC 14496-30).
  const TypeIden: FourCC := 0x6964_656E  // 'iden': cue identifier
  const TypeSttg: FourCC := 0x7374_7467  // 'sttg': cue settings
  const TypePayl: FourCC := 0x7061_796C  // 'payl': cue text
  const TypeCtim: FourCC := 0x6374_696D  // 'ctim': cue current time
  const TypeVttC: FourCC := 0x7674_7443  // 'vttC': WebVTT configuration
  const TypeVtcu: FourCC := 0x7674_6375  // 'vtcu': cue box
  const TypeVtte: FourCC := 0x7674_7465  // 'vtte': empty-cue box
  const TypeWvtt: FourCC := 0x7776_7474  // 'wvtt': WebVTT sample entry

  /** The types whose payload is one string (`boxstring_Read/Write/Size`). */
  predicate IsStringBoxType(t: FourCC) {
    t == TypeIden || t == TypeSttg || t == TypePayl || t == TypeCtim || t == TypeVttC
  }

  /** A box as it travels: its type and the bytes of its payload. */
  datatype Box = Box(boxType: FourCC, payload: seq<byte>)

  /** The box's size fits the 32-bit size field. */
  predicate Fits(b: Box) {
    HeaderSize + |b.payload| <= MaxBoxSize
  }

  /** The compact box header. */
  function Header(size: nat, t: FourCC): (h: seq<byte>)
    requires size <= MaxBoxSize
    ensures |h| == HeaderSize
  {
    U32(size) + U32(t)
  }

  /** A whole box on the wire: header with the box's total size, then the payload. */
  function Frame(b: Box): (r: seq<byte>)
    requires Fits(b)
    ensures |r| == HeaderSize + |b.payload|
  {
    Header(HeaderSize + |b.payload|, b.boxType) + b.payload
  }

  predicate AllFit(bs: seq<Box>) {
    forall b <- bs :: Fits(b)
  }

  /** A run of boxes written one after the other. */
  function Frames(bs: seq<Box>): seq<byte>
    requires AllFit(bs)
  {
    if bs == [] then [] else Frame(bs[0]) + Frames(bs[1..])
  }

  /** Parses one box from the front of `s` (the framing done by `gf_isom_parse_box`):
      the box and the number of bytes it took, or None when fewer than a header's worth of
      bytes remain or the size field is smaller than a header or larger than what remains. */
  function ParseBoxAt(s: seq<byte>): (r: Option<(Box, nat)>)
    ensures r.Some? ==> HeaderSize <= r.value.1 <= |s| && r.value.1 == HeaderSize + |r.value.0.payload|
  {
    if |s| < HeaderSize then None
    else
      var size := FromU32(s[..4]);
      if size < HeaderSize || size > |s| then None
      else Some((Box(FromU32(s[4..8]), s[HeaderSize..size]), size))
  }

  /** A parsed box re-frames to exactly the bytes it was parsed from. */
  lemma ParseBoxAtIsFrame(s: seq<byte>)
    requires ParseBoxAt(s).Some?
    ensures Fits(ParseBoxAt(s).value.0)
    ensures Frame(ParseBoxAt(s).value.0) == s[..ParseBoxAt(s).value.1]
  {
    var (b, size) := ParseBoxAt(s).value;
    FromU32RoundTrip(s[..4]);
    FromU32RoundTrip(s[4..8]);
    assert Frame(b) == s[..4] + s[4..8] + s[8..size];
  }

  /** The boxes of a box list: parsed one after another until the bytes run out or a
      box cannot be parsed (`gf_isom_read_box_list` and the parsing loops of the sample
      decoder). */
  function ParseBoxes(s: seq<byte>): (boxes: seq<Box>)
    decreases |s|
  {
    var p := ParseBoxAt(s);
    if p.None? then [] else [p.value.0] + ParseBoxes(s[p.value.1..])
  }

  /** The boxes of a box list re-frame to a prefix of the bytes they were parsed from:
      nothing is invented, reordered or skipped. */
  lemma {:induction false} ParseBoxesReframes(s: seq<byte>)
    ensures AllFit(ParseBoxes(s))
    ensures |Frames(ParseBoxes(s))| <= |s| && Frames(ParseBoxes(s)) == s[..|Frames(ParseBoxes(s))|]
    decreases |s|
  {
    var p := ParseBoxAt(s);
    if p.Some? {
      var b, n := p.value.0, p.value.1;
      ParseBoxAtIsFrame(s);
      var rest := ParseBoxes(s[n..]);
      ParseBoxesReframes(s[n..]);
      FramesCons(b, rest);
      PrefixThenPrefix(s, n, |Frames(rest)|);
    }
  }

  /** One step of a box list: a box parsed from the front, then the list of the rest. */
  lemma ParseBoxesStep(s: seq<byte>, b: Box, n: nat)
    requires ParseBoxAt(s) == Some((b, n))
    ensures n <= |s| && ParseBoxes(s) == [b] + ParseBoxes(s[n..])
  {
  }

  /** A box list ends at the first box that cannot be parsed. */
  lemma ParseBoxesStop(s: seq<byte>)
    requires ParseBoxAt(s).None?
    ensures ParseBoxes(s) == []
  {
  }

  /** The loop step of every box-list reader: after one more box has been parsed from the
      front of what is left, the boxes read so far grow by that box. */
  lemma ParseBoxesLoopStep(whole: seq<byte>, parsed: seq<Box>, window: seq<byte>, b: Box, n: nat)
    requires ParseBoxes(whole) == parsed + ParseBoxes(window)
    requires ParseBoxAt(window) == Some((b, n))
    ensures n <= |window| && ParseBoxes(whole) == (parsed + [b]) + ParseBoxes(window[n..])
  {
    ParseBoxesStep(window, b, n);
  }

  /** The loop exit of every box-list reader. */
  lemma ParseBoxesLoopExit(whole: seq<byte>, parsed: seq<Box>, window: seq<byte>)
    requires ParseBoxes(whole) == parsed + ParseBoxes(window)
    requires ParseBoxAt(window).None?
    ensures ParseBoxes(whole) == parsed
  {
    ParseBoxesStop(window);
  }

  lemma FramesCons(b: Box, bs: seq<Box>)
    requires Fits(b) && AllFit(bs)
    ensures AllFit([b] + bs) && Frames([b] + bs) == Frame(b) + Frames(bs)
  {
    assert ([b] + bs)[0] == b && ([b] + bs)[1..] == bs;
  }

  lemma SliceOfSlice(s: seq<byte>, a: nat, b: nat, i: nat, j: nat)
    requires a <= b <= |s| && i <= j <= b - a
    ensures s[a..b][i..j] == s[a + i..a + j]
  {
    forall k | 0 <= k < j - i
      ensures s[a..b][i..j][k] == s[a + i..a + j][k]
    {
      assert s[a..b][i..j][k] == s[a..b][i + k] == s[a + i + k];
    }
  }

  lemma PrefixThenPrefix(s: seq<byte>, n: nat, k: nat)
    requires n <= |s| && k <= |s| - n
    ensures s[..n] + s[n..][..k] == s[..n + k]
  {
  }

  /** Parsing a written box gives the box back, and the bytes that follow are untouched. */
  lemma ParseFrame(b: Box, rest: seq<byte>)
    requires Fits(b)
    ensures ParseBoxAt(Frame(b) + rest) == Some((b, HeaderSize + |b.payload|))
  {
    var size := HeaderSize + |b.payload|;
    var s := Frame(b) + rest;
    var sizeField, typeField := U32(size), U32(b.boxType);
    assert s == sizeField + typeField + b.payload + rest;
    assert s[..4] == sizeField && s[4..8] == typeField;
    U32RoundTrip(size);
    U32RoundTrip(b.boxType);
    assert s[HeaderSize..size] == b.payload;
  }

  /** Parsing a written run of boxes gives the run back. */
  lemma {:induction false} ParseFrames(bs: seq<Box>)
    requires AllFit(bs)
    ensures ParseBoxes(Frames(bs)) == bs
  {
    if bs != [] {
      var s := Frames(bs);
      ParseFrame(bs[0], Frames(bs[1..]));
      assert s[|Frame(bs[0])|..] == Frames(bs[1..]);
      ParseFrames(bs[1..]);
    }
  }

  /** Frames of a concatenation are the concatenation of frames. */
  lemma {:induction false} FramesAppend(xs: seq<Box>, ys: seq<Box>)
    requires AllFit(xs) && AllFit(ys)
    ensures AllFit(xs + ys) && Frames(xs + ys) == Frames(xs) + Frames(ys)
  {
    if xs == [] {
      assert xs + ys == ys;
    } else {
      assert xs + ys == [xs[0]] + (xs[1..] + ys);
      assert xs == [xs[0]] + xs[1..];
      FramesAppend(xs[1..], ys);
      FramesCons(xs[0], xs[1..] + ys);
      FramesCons(xs[0], xs[1..]);
    }
  }

  /** Writes the compact header of a box whose size has been computed
      (`gf_isom_box_write_header`). */
  method WriteHeader(w: BitWriter, size: nat, t: FourCC)
    requires size <= MaxBoxSize
    modifies w
    ensures w.data == old(w.data) + Header(size, t)
  {
    U32IsBigEndian(size);
    U32IsBigEndian(t);
    w.WriteUInt(size, 4);
    w.WriteUInt(t, 4);
  }

  /** Reads a box header from the window `r.data[r.pos..end]`: the box's type and payload
      length, leaving the reader at the payload; on a framing error the reader is left where
      it was. */
  method ReadHeader(r: BitReader, end: nat) returns (h: Option<(FourCC, nat)>)
    requires r.Valid() && r.pos <= end <= |r.data|
    modifies r
    ensures r.Valid() && r.pos <= end
    ensures var p := ParseBoxAt(r.data[old(r.pos)..end]);
      match h
      case None => p.None? && r.pos == old(r.pos)
      case Some((t, len)) =>
        r.pos == old(r.pos) + HeaderSize && r.pos + len <= end &&
        p == Some((Box(t, r.data[r.pos..r.pos + len]), HeaderSize + len))
  {
    ghost var p0 := r.pos;
    ghost var window := r.data[p0..end];
    var avail := end - r.pos;
    if avail < HeaderSize {
      return None;
    }
    var sizeBytes := r.ReadData(4);
    var typeBytes := r.ReadData(4);
    SliceOfSlice(r.data, p0, end, 0, 4);
    SliceOfSlice(r.data, p0, end, 4, HeaderSize);
    assert sizeBytes == window[..4] && typeBytes == window[4..8];
    var size := FromU32(sizeBytes);
    var t := FromU32(typeBytes);
    if size < HeaderSize || size > avail {
      r.Seek(r.pos - HeaderSize);
      return None;
    }
    h := Some((t, size - HeaderSize));
    assert r.pos == p0 + HeaderSize && size <= |window|;
    SliceOfSlice(r.data, p0, end, HeaderSize, size);
    assert ParseBoxAt(window) == Some((Box(t, window[HeaderSize..size]), size));
  }

  /** Parses one box of a type this layer keeps as raw bytes. */
  method ParseRawBox(r: BitReader, end: nat) returns (b: Option<Box>)
    requires r.Valid() && r.pos <= end <= |r.data|
    modifies r
    ensures r.Valid() && r.pos <= end
    ensures match ParseBoxAt(r.data[old(r.pos)..end])
      case None => b.None? && r.pos == old(r.pos)
      case Some((box, n)) => b == Some(box) && r.pos == old(r.pos) + n
  {
    var h := ReadHeader(r, end);
    if h.None? {
      return None;
    }
    var payload := r.ReadData(h.value.1);
    b := Some(Box(h.value.0, payload));
  }
}
