/** The elementary stream descriptor `gf_isom_get_webvtt_esd` builds for a WebVTT track: a
    text stream (type 0x0D, object type 0x08) whose decoder-specific information is the
    3GPP text decoder configuration of ISO/IEC 14496-17, section 5, written with no
    sample descriptions in it. */
module TextEsd {
  import opened Wrappers
  import opened Bytes
  import opened BitStream
  import opened BoxCodec
  import opened ErrorCodes

  /** `GF_STREAM_TEXT`. */
  const StreamText: nat := 0x0D
  /** The object type indication of a 3GPP text stream. */
  const ObjectTypeText: nat := 0x08
  /** `GF_ISOM_MEDIA_VISUAL`: the handler type 'vide'. */
  const HandlerVisual: FourCC := 0x76696465
  /** Base format, extended format and profile-level bytes. */
  const FormatByte: byte := 0x10

  /** The fields of the track header the configuration copies: `layer` (signed 16-bit),
      `width` and `height` (16.16 fixed point) and the translation entries `matrix[6]`
      and `matrix[7]` (signed 32-bit). */
  datatype TrackHeader = TrackHeader(layer: int, width: int, height: int, matrix6: int, matrix7: int)

  /** The descriptor: stream type, object type indication and decoder-specific bytes. */
  datatype Esd = Esd(streamType: nat, objectTypeIndication: nat, decoderSpecificInfo: seq<byte>)

  /** The translation a visual movie adds to the configuration. */
  datatype Translation = Translation(x: nat, y: nat)

  /** The configuration as it stands on the wire: a 24-bit time scale, an 8-bit layer,
      16-bit width, height and description count, and the translation when the movie has
      a visual track. */
  datatype TextConfig = TextConfig(timescale: nat, layer: nat, width: nat, height: nat, count: nat,
                                   translation: Option<Translation>)

  /** Each field fits its width on the wire. */
  predicate ConfigInRange(c: TextConfig) {
    && c.timescale < Pow256(3) && c.layer < 256 && c.width < Pow256(2) && c.height < Pow256(2)
    && c.count < 256
    && (c.translation.Some? ==> c.translation.value.x < Pow256(2) && c.translation.value.y < Pow256(2))
  }

  /** The flags byte: no alternative formats (1 bit, 0), out-of-band descriptions only
      (2 bits, 2), descriptions written (1 bit, 1), visual information present (1 bit)
      and 3 reserved zero bits. */
  function FlagsByte(hasVisual: bool): (b: byte)
    ensures b == 0x50 || b == 0x58
    ensures b == 0x58 <==> hasVisual
  {
    0 * 0x80 + 2 * 0x20 + 1 * 0x10 + (if hasVisual then 0x08 else 0)
  }

  /** The serialisation of a configuration, field after field. */
  function EncodeConfig(c: TextConfig): (s: seq<byte>)
    requires ConfigInRange(c)
    ensures |s| == if c.translation.Some? then 21 else 13
  {
    var layer: byte, count: byte := c.layer, c.count;
    var base: seq<byte> := [FormatByte] + [FormatByte] + [FormatByte] + BigEndian(c.timescale, 3)
      + [FlagsByte(c.translation.Some?)] + [layer] + BigEndian(c.width, 2) + BigEndian(c.height, 2)
      + [count];
    if c.translation.None? then base
    else (base + BigEndian(0, 2) + BigEndian(0, 2) + BigEndian(c.translation.value.x, 2)
          + BigEndian(c.translation.value.y, 2))
  }

  /** Reads a configuration back: `None` unless the three format bytes, a flags byte that
      the writer can produce, the zero fields and the length all match. */
  function ParseConfig(s: seq<byte>): (r: Option<TextConfig>)
    ensures r.Some? ==> ConfigInRange(r.value)
  {
    if |s| < 13 || s[0] != FormatByte || s[1] != FormatByte || s[2] != FormatByte then None
    else if s[6] != FlagsByte(false) && s[6] != FlagsByte(true) then None
    else
      var hasVisual := s[6] == FlagsByte(true);
      if |s| != (if hasVisual then 21 else 13) then None
      else if hasVisual && s[13..17] != [0, 0, 0, 0] then None
      else
        var translation :=
          if hasVisual then Some(Translation(FromBigEndian(s[17..19]), FromBigEndian(s[19..21]))) else None;
        Some(TextConfig(FromBigEndian(s[3..6]), s[7], FromBigEndian(s[8..10]), FromBigEndian(s[10..12]),
                        s[12], translation))
  }

  /** The positions of each field in the serialisation. */
  lemma EncodeConfigLayout(c: TextConfig)
    requires ConfigInRange(c)
    ensures var s := EncodeConfig(c);
      && s[0] == FormatByte && s[1] == FormatByte && s[2] == FormatByte
      && s[3..6] == BigEndian(c.timescale, 3) && s[6] == FlagsByte(c.translation.Some?)
      && s[7] == c.layer && s[8..10] == BigEndian(c.width, 2) && s[10..12] == BigEndian(c.height, 2)
      && s[12] == c.count
      && (c.translation.Some? ==>
            && s[13..17] == [0, 0, 0, 0]
            && s[17..19] == BigEndian(c.translation.value.x, 2)
            && s[19..21] == BigEndian(c.translation.value.y, 2))
  {
    var s := EncodeConfig(c);
    var head := [FormatByte] + [FormatByte] + [FormatByte] + BigEndian(c.timescale, 3);
    assert s[..6] == head;
    assert head[3..6] == BigEndian(c.timescale, 3);
    var mid := head + [FlagsByte(c.translation.Some?)] + [c.layer] + BigEndian(c.width, 2);
    assert s[..10] == mid;
    assert mid[8..10] == BigEndian(c.width, 2);
    var base := mid + BigEndian(c.height, 2) + [c.count];
    assert s[..13] == base;
    assert base[10..12] == BigEndian(c.height, 2);
    if c.translation.Some? {
      var t := c.translation.value;
      assert BigEndian(0, 2) == [0, 0];
      var zeros := base + BigEndian(0, 2) + BigEndian(0, 2);
      assert s[..17] == zeros;
      assert zeros[13..17] == [0, 0, 0, 0];
      var withX := zeros + BigEndian(t.x, 2);
      assert s[..19] == withX;
      assert withX[17..19] == BigEndian(t.x, 2);
      assert s == withX + BigEndian(t.y, 2);
    }
  }

  /** Reading back what was written gives the configuration back. */
  lemma ParseEncodeConfig(c: TextConfig)
    requires ConfigInRange(c)
    ensures ParseConfig(EncodeConfig(c)) == Some(c)
  {
    EncodeConfigLayout(c);
    BigEndianRoundTrip(c.timescale, 3);
    BigEndianRoundTrip(c.width, 2);
    BigEndianRoundTrip(c.height, 2);
    if c.translation.Some? {
      BigEndianRoundTrip(c.translation.value.x, 2);
      BigEndianRoundTrip(c.translation.value.y, 2);
    }
  }

  /** Whatever reads back as a configuration is exactly that configuration's
      serialisation: no two byte strings read back as the same configuration. */
  lemma EncodeParseConfig(s: seq<byte>)
    requires ParseConfig(s).Some?
    ensures EncodeConfig(ParseConfig(s).value) == s
  {
    var c := ParseConfig(s).value;
    EncodeConfigLayout(c);
    FromBigEndianRoundTrip(s[3..6]);
    FromBigEndianRoundTrip(s[8..10]);
    FromBigEndianRoundTrip(s[10..12]);
    if c.translation.Some? {
      FromBigEndianRoundTrip(s[17..19]);
      FromBigEndianRoundTrip(s[19..21]);
    }
    EqualByFields(EncodeConfig(c), s);
  }

  /** Two configurations of the same length agree when every field does. */
  lemma EqualByFields(a: seq<byte>, b: seq<byte>)
    requires |a| == |b| && (|a| == 13 || |a| == 21)
    requires a[0] == b[0] && a[1] == b[1] && a[2] == b[2] && a[3..6] == b[3..6]
    requires a[6] == b[6] && a[7] == b[7] && a[8..10] == b[8..10] && a[10..12] == b[10..12]
    requires a[12] == b[12]
    requires |a| == 21 ==> a[13..17] == b[13..17] && a[17..19] == b[17..19] && a[19..21] == b[19..21]
    ensures a == b
  {
    forall i | 0 <= i < |a|
      ensures a[i] == b[i]
    {
      if 3 <= i < 6 {
        assert a[i] == a[3..6][i - 3] && b[i] == b[3..6][i - 3];
      } else if 8 <= i < 10 {
        assert a[i] == a[8..10][i - 8] && b[i] == b[8..10][i - 8];
      } else if 10 <= i < 12 {
        assert a[i] == a[10..12][i - 10] && b[i] == b[10..12][i - 10];
      } else if 13 <= i < 17 {
        assert a[i] == a[13..17][i - 13] && b[i] == b[13..17][i - 13];
      } else if 17 <= i < 19 {
        assert a[i] == a[17..19][i - 17] && b[i] == b[17..19][i - 17];
      } else if 19 <= i {
        assert a[i] == a[19..21][i - 19] && b[i] == b[19..21][i - 19];
      }
    }
  }

  /** The upper 16 bits of a 32-bit field, as C computes `(u32) v >> 16`. */
  function HighHalf(v: int): (r: nat)
    ensures r < Pow256(2)
    ensures 0 <= v < 0x1_0000_0000 ==> r == v / 0x1_0000
  {
    assert Pow256(4) == 0x1_0000_0000 && Pow256(2) == 0x1_0000;
    Truncate(v, 4) / 0x1_0000
  }

  /** The configuration `gf_isom_get_webvtt_esd` writes for a media with `count` sample
      descriptions and time scale `timescale` in a movie that has, or has not, a visual
      track: every field is cut to its width on the wire. */
  function WrittenConfig(timescale: int, hasVisual: bool, header: TrackHeader, count: int): (c: TextConfig)
    ensures ConfigInRange(c)
    ensures c.translation.Some? <==> hasVisual
  {
    TextConfig(Truncate(timescale, 3), Truncate(header.layer, 1), HighHalf(header.width),
               HighHalf(header.height), Truncate(count, 1),
               if hasVisual then Some(Translation(HighHalf(header.matrix6), HighHalf(header.matrix7))) else None)
  }

  /** Some track of the movie has a visual handler; `None` stands for a track without a
      handler. */
  predicate AnyVisual(handlers: seq<Option<FourCC>>) {
    exists i :: 0 <= i < |handlers| && handlers[i] == Some(HandlerVisual)
  }

  /** The scan of the movie's track list: every track is looked at, and the flag is set
      when one has a visual handler. */
  method HasVisualTrack(handlers: seq<Option<FourCC>>) returns (hasVisual: bool)
    ensures hasVisual <==> AnyVisual(handlers)
  {
    hasVisual := false;
    var i := 0;
    while i < |handlers|
      invariant 0 <= i <= |handlers|
      invariant hasVisual <==> exists j :: 0 <= j < i && handlers[j] == Some(HandlerVisual)
    {
      if handlers[i].Some? && handlers[i].value == HandlerVisual {
        hasVisual := true;
      }
      i := i + 1;
    }
  }

  /** `gf_isom_get_webvtt_esd`: invalid media when the track has no sample description;
      otherwise a text stream descriptor whose decoder-specific information is the
      configuration, written field by field. `count` is the number of sample descriptions,
      `timescale` the media's time scale, `handlers` the handler types of the movie's
      tracks and `header` the track header. */
  method GetWebVttEsd(count: nat, timescale: nat, handlers: seq<Option<FourCC>>, header: TrackHeader)
    returns (e: Err, esd: Option<Esd>)
    ensures count == 0 <==> e == InvalidMedia
    ensures e == InvalidMedia ==> esd.None?
    ensures e != InvalidMedia ==> e == Ok && esd == Some(Esd(StreamText, ObjectTypeText,
      EncodeConfig(WrittenConfig(timescale, AnyVisual(handlers), header, count))))
  {
    if count == 0 {
      return InvalidMedia, None;
    }
    var w := new BitWriter();
    OneByte(FormatByte);
    w.WriteUInt(FormatByte, 1);
    w.WriteUInt(FormatByte, 1);
    w.WriteUInt(FormatByte, 1);
    assert w.data == [FormatByte] + [FormatByte] + [FormatByte];
    w.WriteUInt(timescale, 3);
    var hasVisual := HasVisualTrack(handlers);
    ghost var c := WrittenConfig(timescale, hasVisual, header, count);
    OneByte(FlagsByte(hasVisual));
    w.WriteUInt(FlagsByte(hasVisual), 1);
    OneByte(header.layer);
    w.WriteUInt(header.layer, 1);
    w.WriteUInt(HighHalf(header.width), 2);
    w.WriteUInt(HighHalf(header.height), 2);
    OneByte(count);
    w.WriteUInt(count, 1);
    if hasVisual {
      w.WriteUInt(0, 2);
      w.WriteUInt(0, 2);
      w.WriteUInt(HighHalf(header.matrix6), 2);
      w.WriteUInt(HighHalf(header.matrix7), 2);
    }
    assert w.data == EncodeConfig(c);
    e, esd := Ok, Some(Esd(StreamText, ObjectTypeText, w.data));
  }

  /** A one-byte field holds the low byte of the value. */
  lemma OneByte(v: int)
    ensures Truncate(v, 1) < 256 && BigEndian(Truncate(v, 1), 1) == [Truncate(v, 1)]
  {
    assert Pow256(1) == 256;
  }

  /** The descriptor's configuration reads back: the time scale cut to 24 bits, the
      description count cut to 8 bits, and a translation exactly when the movie has a
      visual track. */
  lemma EsdConfigReadsBack(timescale: nat, handlers: seq<Option<FourCC>>, header: TrackHeader, count: nat)
    ensures var c := ParseConfig(EncodeConfig(WrittenConfig(timescale, AnyVisual(handlers), header, count)));
      && c.Some?
      && c.value.timescale == timescale % 0x100_0000
      && c.value.count == count % 0x100
      && (c.value.translation.Some? <==> AnyVisual(handlers))
  {
    ParseEncodeConfig(WrittenConfig(timescale, AnyVisual(handlers), header, count));
    assert Pow256(3) == 0x100_0000 && Pow256(1) == 0x100;
  }
}
