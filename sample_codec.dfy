/** WebVTT samples on the wire: the encoder that writes one cue box per cue
    (`webvtt_write_cue`, `gf_isom_webvtt_to_sample`) and the decoder that turns the bytes
    of a sample back into cues (`gf_isom_parse_webvtt_cue`, `gf_isom_parse_webvtt_sample`,
    `gf_isom_parse_webvtt_sample_from_data`), as written and as evidently intended. */
module SampleCodec {
  import opened Wrappers
  import opened Bytes
  import opened BitStream
  import opened BoxCodec
  import opened WebVttBoxes
  import opened Cues

  // ---------------------------------------------------------------------------
  // The encoding, on values

  /** The string child box for an optional cue string: none when the string is absent. */
  function OptionalBox(t: FourCC, v: Option<CString>): seq<Box> {
    if v.None? then [] else [Box(t, v.value)]
  }

  /** The size an optional string child adds to its cue box. */
  function OptionalSize(v: Option<CString>): nat {
    if v.None? then 0 else HeaderSize + |v.value|
  }

  /** The children of a cue's box, in the order `vtcu_Write` emits them. */
  function CueChildBoxes(c: CueValue): seq<Box> {
    OptionalBox(TypeIden, c.id) + OptionalBox(TypeSttg, c.settings) + OptionalBox(TypePayl, c.text)
  }

  /** The size `vtcu_Size` computes for a cue's box. */
  function CueBoxSize(c: CueValue): nat {
    HeaderSize + OptionalSize(c.id) + OptionalSize(c.settings) + OptionalSize(c.text)
  }

  /** The cue's box fits the 32-bit size field. */
  predicate CueFits(c: CueValue) {
    CueBoxSize(c) <= MaxBoxSize
  }

  predicate AllCuesFit(cs: seq<CueValue>) {
    forall i :: 0 <= i < |cs| ==> CueFits(cs[i])
  }

  lemma OptionalBoxFrames(t: FourCC, v: Option<CString>)
    requires OptionalSize(v) <= MaxBoxSize
    ensures AllFit(OptionalBox(t, v)) && |Frames(OptionalBox(t, v))| == OptionalSize(v)
    ensures v.Some? ==> Frames(OptionalBox(t, v)) == Frame(Box(t, v.value))
  {
    if v.Some? {
      FramesCons(Box(t, v.value), []);
    }
  }

  /** The children of a cue's box fit and together take the box's size less its header. */
  lemma CueChildFrames(c: CueValue)
    requires CueFits(c)
    ensures AllFit(CueChildBoxes(c))
    ensures Frames(CueChildBoxes(c)) == Frames(OptionalBox(TypeIden, c.id))
      + Frames(OptionalBox(TypeSttg, c.settings)) + Frames(OptionalBox(TypePayl, c.text))
    ensures HeaderSize + |Frames(CueChildBoxes(c))| == CueBoxSize(c)
  {
    var a, b, d := OptionalBox(TypeIden, c.id), OptionalBox(TypeSttg, c.settings), OptionalBox(TypePayl, c.text);
    OptionalBoxFrames(TypeIden, c.id);
    OptionalBoxFrames(TypeSttg, c.settings);
    OptionalBoxFrames(TypePayl, c.text);
    FramesAppend(a, b);
    FramesAppend(a + b, d);
  }

  /** The box a cue is written as: a 'vtcu' whose payload is its children. */
  function CueBoxOf(c: CueValue): (b: Box)
    requires CueFits(c)
    ensures Fits(b) && HeaderSize + |b.payload| == CueBoxSize(c)
  {
    CueChildFrames(c);
    Box(TypeVtcu, Frames(CueChildBoxes(c)))
  }

  /** The boxes of a sample: one cue box per cue, in list order. */
  function CueBoxes(cs: seq<CueValue>): (bs: seq<Box>)
    requires AllCuesFit(cs)
    ensures |bs| == |cs| && AllFit(bs)
    ensures forall i :: 0 <= i < |cs| ==> bs[i] == CueBoxOf(cs[i])
    decreases |cs|
  {
    if cs == [] then [] else [CueBoxOf(cs[0])] + CueBoxes(cs[1..])
  }

  /** The bytes of an encoded sample. An empty cue list gives no bytes at all: no
      empty-cue box is inserted. */
  function EncodeCues(cs: seq<CueValue>): seq<byte>
    requires AllCuesFit(cs)
  {
    Frames(CueBoxes(cs))
  }

  /** Encoding one more cue appends that cue's box. */
  lemma EncodeCuesSnoc(cs: seq<CueValue>, c: CueValue)
    requires AllCuesFit(cs) && CueFits(c)
    ensures AllCuesFit(cs + [c])
    ensures EncodeCues(cs + [c]) == EncodeCues(cs) + Frame(CueBoxOf(c))
  {
    assert AllCuesFit(cs + [c]);
    assert CueBoxes(cs + [c]) == CueBoxes(cs) + [CueBoxOf(c)];
    FramesAppend(CueBoxes(cs), [CueBoxOf(c)]);
    FramesCons(CueBoxOf(c), []);
  }

  /** The sample's boxes read back one per cue: each is a 'vtcu' box, and the children of
      the i-th are an 'iden', 'sttg' and 'payl' box exactly when the i-th cue has an id,
      settings and text, in that order. */
  lemma {:induction false} EncodedSampleStructure(cs: seq<CueValue>)
    requires AllCuesFit(cs)
    ensures var boxes := ParseBoxes(EncodeCues(cs));
      && |boxes| == |cs|
      && forall i :: 0 <= i < |cs| ==>
           && boxes[i].boxType == TypeVtcu
           && ParseBoxes(boxes[i].payload) == CueChildBoxes(cs[i])
  {
    ParseFrames(CueBoxes(cs));
    forall i | 0 <= i < |cs|
      ensures ParseBoxes(CueBoxes(cs)[i].payload) == CueChildBoxes(cs[i])
    {
      CueChildFrames(cs[i]);
      ParseFrames(CueChildBoxes(cs[i]));
    }
  }

  // ---------------------------------------------------------------------------
  // The encoder

  /** A string child that `vtcu_Size` has sized is written as the frame of the child box
      the value calls for. */
  lemma SizedChildIsFrame(sb: StringBox?, t: FourCC, v: Option<CString>)
    requires v.None? ==> sb == null
    requires v.Some? ==> sb != null && sb.boxType == t && sb.str == v && sb.Sized()
    requires OptionalSize(v) <= MaxBoxSize
    ensures ChildWritable(sb) && ChildSize(sb) == OptionalSize(v)
    ensures ChildBytes(sb) == Frames(OptionalBox(t, v))
  {
    OptionalBoxFrames(t, v);
    if v.Some? {
      CStrOfCString(v.value);
      StringBoxSizedIsFrame(t, v.value);
    }
  }

  /** A cue box written from a cue's sized children is the frame of the cue's box. */
  lemma CueBoxBytes(c: CueValue, size: nat, idBytes: seq<byte>, settingsBytes: seq<byte>, textBytes: seq<byte>)
    requires CueFits(c) && size == CueBoxSize(c)
    requires idBytes == Frames(OptionalBox(TypeIden, c.id))
    requires settingsBytes == Frames(OptionalBox(TypeSttg, c.settings))
    requires textBytes == Frames(OptionalBox(TypePayl, c.text))
    ensures Header(size, TypeVtcu) + (idBytes + settingsBytes + textBytes) == Frame(CueBoxOf(c))
  {
    CueChildFrames(c);
  }

  /** The child pointer holds a new string box of type `t` for the optional string `v`. */
  predicate NewChildFor(sb: StringBox?, t: FourCC, v: Option<CString>)
    reads sb
  {
    if v.None? then sb == null else sb != null && sb.boxType == t && sb.str == v
  }

  /** The cue box `webvtt_write_cue` builds for a cue: an 'iden', 'sttg' and 'payl' child
      for each of the cue's id, settings and text that is present. */
  method NewCueBox(c: CueValue) returns (cuebox: CueBox)
    ensures fresh(cuebox)
    ensures cuebox.id != null ==> fresh(cuebox.id)
    ensures cuebox.settings != null ==> fresh(cuebox.settings)
    ensures cuebox.payload != null ==> fresh(cuebox.payload)
    ensures NewChildFor(cuebox.id, TypeIden, c.id)
    ensures NewChildFor(cuebox.settings, TypeSttg, c.settings)
    ensures NewChildFor(cuebox.payload, TypePayl, c.text)
  {
    cuebox := new CueBox();
    if c.id.Some? {
      cuebox.id := new StringBox(TypeIden, c.id);
    }
    if c.settings.Some? {
      cuebox.settings := new StringBox(TypeSttg, c.settings);
    }
    if c.text.Some? {
      cuebox.payload := new StringBox(TypePayl, c.text);
    }
  }

  /** The child pointer holds a sized string box of type `t` for the optional string `v`. */
  predicate SizedChildFor(sb: StringBox?, t: FourCC, v: Option<CString>)
    reads sb
  {
    NewChildFor(sb, t, v) && ChildSized(sb)
  }

  /** `gf_isom_box_size` on the cue box built for `c`: it gets the size of the cue's box. */
  method SizeCueBox(cuebox: CueBox, c: CueValue)
    requires NewChildFor(cuebox.id, TypeIden, c.id)
    requires NewChildFor(cuebox.settings, TypeSttg, c.settings)
    requires NewChildFor(cuebox.payload, TypePayl, c.text)
    modifies cuebox, cuebox.id, cuebox.settings, cuebox.payload
    ensures SizedChildFor(cuebox.id, TypeIden, c.id)
    ensures SizedChildFor(cuebox.settings, TypeSttg, c.settings)
    ensures SizedChildFor(cuebox.payload, TypePayl, c.text)
    ensures cuebox.size == CueBoxSize(c)
  {
    cuebox.ComputeSize();
    CStrOfOptional(c.id);
    CStrOfOptional(c.settings);
    CStrOfOptional(c.text);
  }

  lemma CStrOfOptional(v: Option<CString>)
    ensures v.Some? ==> |CStr(v.value)| == |v.value|
  {
    if v.Some? {
      CStrOfCString(v.value);
    }
  }

  /** What `vtcu_Write` emits for the sized cue box built for `c` is the frame of the
      cue's box. */
  lemma SizedCueBoxBytes(cuebox: CueBox, c: CueValue)
    requires CueFits(c) && cuebox.size == CueBoxSize(c)
    requires SizedChildFor(cuebox.id, TypeIden, c.id)
    requires SizedChildFor(cuebox.settings, TypeSttg, c.settings)
    requires SizedChildFor(cuebox.payload, TypePayl, c.text)
    ensures ChildWritable(cuebox.id) && ChildWritable(cuebox.settings) && ChildWritable(cuebox.payload)
    ensures Header(cuebox.size, TypeVtcu) + ChildBytes(cuebox.id) + ChildBytes(cuebox.settings)
            + ChildBytes(cuebox.payload) == Frame(CueBoxOf(c))
  {
    SizedChildIsFrame(cuebox.id, TypeIden, c.id);
    SizedChildIsFrame(cuebox.settings, TypeSttg, c.settings);
    SizedChildIsFrame(cuebox.payload, TypePayl, c.text);
    var h, a, b, d := Header(cuebox.size, TypeVtcu), ChildBytes(cuebox.id),
                      ChildBytes(cuebox.settings), ChildBytes(cuebox.payload);
    CueBoxBytes(c, cuebox.size, a, b, d);
    GroupTail(h, a, b, d);
  }

  lemma GroupTail(h: seq<byte>, a: seq<byte>, b: seq<byte>, d: seq<byte>)
    ensures h + a + b + d == h + (a + b + d)
  {
  }

  /** `gf_isom_box_write` on the sized cue box built for `c`: the bytes written are the
      frame of the cue's box. */
  method WriteSizedCueBox(cuebox: CueBox, c: CueValue, w: BitWriter)
    requires CueFits(c) && cuebox.size == CueBoxSize(c)
    requires SizedChildFor(cuebox.id, TypeIden, c.id)
    requires SizedChildFor(cuebox.settings, TypeSttg, c.settings)
    requires SizedChildFor(cuebox.payload, TypePayl, c.text)
    modifies w
    ensures w.data == old(w.data) + Frame(CueBoxOf(c))
  {
    SizedCueBoxBytes(cuebox, c);
    ghost var h := Header(cuebox.size, TypeVtcu);
    ghost var a, b, d := ChildBytes(cuebox.id), ChildBytes(cuebox.settings), ChildBytes(cuebox.payload);
    cuebox.Write(w);
    AppendAssoc(old(w.data), h, a, b, d);
  }

  /** `webvtt_write_cue`: nothing for a null cue; otherwise the cue's box is built, sized
      and written. */
  method WriteCue(w: BitWriter, cue: Cue?)
    requires cue != null ==> CueFits(cue.Value())
    modifies w
    ensures w.data == old(w.data) + (if cue == null then [] else Frame(CueBoxOf(cue.Value())))
  {
    if cue == null {
      return;
    }
    var cuebox := NewCueBox(cue.Value());
    SizeCueBox(cuebox, cue.Value());
    WriteSizedCueBox(cuebox, cue.Value(), w);
  }

  lemma AppendAssoc(w: seq<byte>, h: seq<byte>, a: seq<byte>, b: seq<byte>, d: seq<byte>)
    ensures w + h + a + b + d == w + (h + a + b + d)
  {
  }

  /** One turn of the loop of `gf_isom_webvtt_to_sample`: the cue box of the next cue is
      appended to the cue boxes written so far. */
  method AppendCueBox(w: BitWriter, cue: Cue, ghost done: seq<CueValue>, ghost v: CueValue)
    requires cue.Value() == v
    requires AllCuesFit(done) && CueFits(v)
    requires w.data == EncodeCues(done)
    modifies w
    ensures AllCuesFit(done + [v])
    ensures w.data == EncodeCues(done + [v])
  {
    WriteCue(w, cue);
    EncodeCuesSnoc(done, v);
  }

  lemma TakeSnoc<T>(s: seq<T>, i: nat)
    requires i < |s|
    ensures s[..i + 1] == s[..i] + [s[i]]
  {
  }

  /** An ISO media sample: its bytes and whether it is a random access point. */
  datatype IsoSample = IsoSample(data: seq<byte>, isRap: bool)

  /** `gf_isom_webvtt_to_sample`: no sample for a null WebVTT sample; otherwise a random
      access sample whose bytes are the encoding of the cues, in order. */
  method WebVttToSample(samp: WebVttSample?) returns (res: Option<IsoSample>)
    requires samp != null ==> AllCuesFit(CueValues(samp.cues))
    ensures samp == null ==> res.None?
    ensures samp != null ==> res == Some(IsoSample(EncodeCues(CueValues(samp.cues)), true))
  {
    if samp == null {
      return None;
    }
    var w := new BitWriter();
    ghost var vs := CueValues(samp.cues);
    var i := 0;
    while i < |samp.cues|
      invariant 0 <= i <= |samp.cues| == |vs|
      invariant CueValues(samp.cues) == vs
      invariant AllCuesFit(vs[..i]) && w.data == EncodeCues(vs[..i])
    {
      var cue := samp.cues[i];
      assert cue.Value() == vs[i] && CueFits(vs[i]);
      TakeSnoc(vs, i);
      AppendCueBox(w, cue, vs[..i], vs[i]);
      i := i + 1;
    }
    assert vs[..i] == vs;
    res := Some(IsoSample(w.data, true));
  }

  // ---------------------------------------------------------------------------
  // The decoder, on values

  /** What `gf_strdup` makes of a string box's buffer: the C string it holds. */
  function CStrOf(v: Option<seq<byte>>): Option<CString> {
    if v.None? then None else Some(CStr(v.value))
  }

  /** The cue `gf_isom_parse_webvtt_cue` builds from a box list: a zero-filled cue whose
      id, settings, text and time are those of the last 'iden', 'sttg', 'payl' and 'ctim'
      box, every other box being discarded. */
  function DecodedCue(bs: seq<Box>): (c: CueValue)
    ensures c == EmptyCue.(id := c.id, settings := c.settings, text := c.text, time := c.time)
  {
    var r := RouteCueChildren(NoCueChildren, bs);
    EmptyCue.(id := CStrOf(r.id), settings := CStrOf(r.settings), text := CStrOf(r.payload),
              time := CStrOf(r.time))
  }

  /** The decoded cue's strings are those of the last box of each type. */
  lemma DecodedCueLastWins(bs: seq<Box>)
    ensures var c := DecodedCue(bs);
      && c.id == CStrOf(LastOfType(bs, TypeIden))
      && c.settings == CStrOf(LastOfType(bs, TypeSttg))
      && c.text == CStrOf(LastOfType(bs, TypePayl))
      && c.time == CStrOf(LastOfType(bs, TypeCtim))
  {
    RouteCueChildrenLastWins(bs);
  }

  /** The switch of `gf_isom_parse_webvtt_cue` on values: an 'iden', 'sttg', 'payl' or
      'ctim' box replaces the cue's id, settings, text or time with the box's C string;
      any other box leaves the cue as it is. */
  function WithDecodedField(c: CueValue, b: Box): CueValue {
    if b.boxType == TypeCtim then c.(time := Some(CStr(b.payload)))
    else if b.boxType == TypeIden then c.(id := Some(CStr(b.payload)))
    else if b.boxType == TypeSttg then c.(settings := Some(CStr(b.payload)))
    else if b.boxType == TypePayl then c.(text := Some(CStr(b.payload)))
    else c
  }

  /** The decoded cue of a box list is built box by box by that switch. */
  lemma DecodedCueSnoc(bs: seq<Box>, b: Box)
    ensures DecodedCue(bs + [b]) == WithDecodedField(DecodedCue(bs), b)
  {
    RouteAppend(NoCueChildren, bs, b);
    var r := RouteCueChildren(NoCueChildren, bs);
    var r' := RouteCueChildren(NoCueChildren, bs + [b]);
    assert r' == AddCueChild(r, b);
    if b.boxType == TypeCtim {
      assert r' == r.(time := Some(b.payload));
    } else if b.boxType == TypeIden {
      assert r' == r.(id := Some(b.payload));
    } else if b.boxType == TypeSttg {
      assert r' == r.(settings := Some(b.payload));
    } else if b.boxType == TypePayl {
      assert r' == r.(payload := Some(b.payload));
    } else {
      assert r'.id == r.id && r'.settings == r.settings && r'.payload == r.payload && r'.time == r.time;
    }
  }

  /** `gf_isom_parse_webvtt_sample` as written, on the sample's box list: boxes before the
      first cue box are skipped; at the first cue box the cue parser is run on the OUTER
      list, so it takes its strings from the boxes that follow the cue box and consumes
      them all. */
  function AsWrittenCues(boxes: seq<Box>): seq<CueValue>
    decreases |boxes|
  {
    if boxes == [] then []
    else if boxes[0].boxType == TypeVtcu then [DecodedCue(boxes[1..])]
    else AsWrittenCues(boxes[1..])
  }

  /** The decoding of a sample's bytes as written. */
  function DecodeSampleAsWritten(s: seq<byte>): seq<CueValue> {
    AsWrittenCues(ParseBoxes(s))
  }

  /** The as-written decoder yields at most one cue. */
  lemma {:induction false} AsWrittenAtMostOneCue(boxes: seq<Box>)
    ensures |AsWrittenCues(boxes)| <= 1
    decreases |boxes|
  {
    if boxes != [] && boxes[0].boxType != TypeVtcu {
      AsWrittenAtMostOneCue(boxes[1..]);
    }
  }

  lemma {:induction false} LastOfTypeAbsent(bs: seq<Box>, t: FourCC)
    requires forall b <- bs :: b.boxType != t
    ensures LastOfType(bs, t).None?
    decreases |bs|
  {
    if bs != [] {
      assert bs[|bs| - 1] in bs;
      assert forall b <- bs[..|bs| - 1] :: b in bs;
      LastOfTypeAbsent(bs[..|bs| - 1], t);
    }
  }

  /** Decoding, as written, what the encoder wrote: any non-empty cue list comes back as
      ONE zero-filled cue, whatever the cues held. */
  lemma DecodeAsWrittenCollapses(cs: seq<CueValue>)
    requires AllCuesFit(cs) && cs != []
    ensures DecodeSampleAsWritten(EncodeCues(cs)) == [EmptyCue]
  {
    var boxes := CueBoxes(cs);
    ParseFrames(boxes);
    var rest := boxes[1..];
    assert forall b <- rest :: b.boxType == TypeVtcu;
    LastOfTypeAbsent(rest, TypeIden);
    LastOfTypeAbsent(rest, TypeSttg);
    LastOfTypeAbsent(rest, TypePayl);
    LastOfTypeAbsent(rest, TypeCtim);
    DecodedCueLastWins(rest);
  }

  /** A concrete instance: a single cue whose id is "a" is decoded as written into a cue
      without id. */
  lemma DecodeAsWrittenLosesId()
    ensures var c := EmptyCue.(id := Some([0x61]));
      && AllCuesFit([c])
      && DecodeSampleAsWritten(EncodeCues([c])) == [EmptyCue]
      && DecodeSampleAsWritten(EncodeCues([c]))[0].id != c.id
  {
    var c := EmptyCue.(id := Some([0x61]));
    assert AllCuesFit([c]);
    DecodeAsWrittenCollapses([c]);
  }

  /** The sample decoder as evidently intended: each cue box yields one cue, decoded from
      that box's OWN children; empty-cue boxes and other boxes yield nothing. */
  function DecodedCues(boxes: seq<Box>): seq<CueValue>
    decreases |boxes|
  {
    if boxes == [] then []
    else
      (if boxes[0].boxType == TypeVtcu then [DecodedCue(ParseBoxes(boxes[0].payload))] else [])
      + DecodedCues(boxes[1..])
  }

  function DecodeSample(s: seq<byte>): seq<CueValue> {
    DecodedCues(ParseBoxes(s))
  }

  /** What a sample carries of a cue: its id, settings and text (not its timing, its
      time string or its split bookkeeping, which are carried outside the sample). */
  function Carried(c: CueValue): CueValue {
    EmptyCue.(id := c.id, settings := c.settings, text := c.text)
  }

  function CarriedAll(cs: seq<CueValue>): (r: seq<CueValue>)
    ensures |r| == |cs|
    decreases |cs|
  {
    if cs == [] then [] else [Carried(cs[0])] + CarriedAll(cs[1..])
  }

  /** A cue's box decodes to what the sample carries of the cue. */
  lemma DecodeCueBox(c: CueValue)
    requires CueFits(c)
    ensures DecodedCue(ParseBoxes(CueBoxOf(c).payload)) == Carried(c)
  {
    CueChildFrames(c);
    ParseFrames(CueChildBoxes(c));
    var bs := CueChildBoxes(c);
    RouteCueChildrenLastWins(bs);
    assert LastOfType(bs, TypeCtim) == None by { LastOfCueChild(c, TypeCtim); }
    assert LastOfType(bs, TypeIden) == c.id by { LastOfCueChild(c, TypeIden); }
    assert LastOfType(bs, TypeSttg) == c.settings by { LastOfCueChild(c, TypeSttg); }
    assert LastOfType(bs, TypePayl) == c.text by { LastOfCueChild(c, TypePayl); }
    forall v: Option<CString> ensures CStrOf(v) == v {
      if v.Some? { CStrOfCString(v.value); }
    }
  }

  lemma LastOfCueChild(c: CueValue, t: FourCC)
    ensures LastOfType(CueChildBoxes(c), t) ==
      if t == TypeIden then c.id else if t == TypeSttg then c.settings
      else if t == TypePayl then c.text else None
  {
    var a, b, d := OptionalBox(TypeIden, c.id), OptionalBox(TypeSttg, c.settings), OptionalBox(TypePayl, c.text);
    LastOfTypeConcat(a + b, d, t);
    LastOfTypeConcat(a, b, t);
  }

  lemma {:induction false} LastOfTypeConcat(xs: seq<Box>, ys: seq<Box>, t: FourCC)
    ensures LastOfType(xs + ys, t) == if LastOfType(ys, t).Some? then LastOfType(ys, t) else LastOfType(xs, t)
    decreases |ys|
  {
    if ys == [] {
      assert xs + ys == xs;
    } else {
      var init := ys[..|ys| - 1];
      assert (xs + ys)[..|xs + ys| - 1] == xs + init;
      LastOfTypeConcat(xs, init, t);
    }
  }

  /** Decoding, as intended, what the encoder wrote gives back, cue for cue, what the
      sample carries of each cue. */
  lemma {:induction false} DecodeSampleRoundTrip(cs: seq<CueValue>)
    requires AllCuesFit(cs)
    ensures DecodeSample(EncodeCues(cs)) == CarriedAll(cs)
  {
    ParseFrames(CueBoxes(cs));
    DecodedCuesOfCueBoxes(cs);
  }

  lemma {:induction false} DecodedCuesOfCueBoxes(cs: seq<CueValue>)
    requires AllCuesFit(cs)
    ensures DecodedCues(CueBoxes(cs)) == CarriedAll(cs)
    decreases |cs|
  {
    if cs != [] {
      var bs := CueBoxes(cs);
      assert bs[1..] == CueBoxes(cs[1..]);
      DecodeCueBox(cs[0]);
      DecodedCuesOfCueBoxes(cs[1..]);
    }
  }
}
