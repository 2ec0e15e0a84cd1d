/** The sample decoder as the routines run it, over a read bitstream: the cue parser
    `gf_isom_parse_webvtt_cue`, the sample parser `gf_isom_parse_webvtt_sample` and
    `gf_isom_parse_webvtt_sample_from_data`. Each is proved to compute the value-level
    decoding of `SampleCodec`. */
module SampleParser {
  import opened Wrappers
  import opened Bytes
  import opened BitStream
  import opened BoxCodec
  import opened WebVttBoxes
  import opened Cues
  import opened SampleCodec

  /** The switch of `gf_isom_parse_webvtt_cue` on one parsed box: a copy of the string of
      an 'iden', 'sttg', 'payl' or 'ctim' box replaces the cue's id, settings, text or
      time; any other box is discarded. */
  method StoreField(cue: Cue, child: Child)
    requires child.StringChild? <==> IsStringBoxType(ChildType(child))
    requires child.StringChild? ==> child.sb.str.Some?
    modifies cue
    ensures cue.Value() == WithDecodedField(old(cue.Value()), ChildBox(child))
  {
    if child.StringChild? {
      var sb := child.sb;
      var t := sb.boxType;
      if t == TypeIden {
        cue.id := Some(CStr(sb.str.value));
      } else if t == TypeSttg {
        cue.settings := Some(CStr(sb.str.value));
      } else if t == TypePayl {
        cue.text := Some(CStr(sb.str.value));
      } else if t == TypeCtim {
        cue.time := Some(CStr(sb.str.value));
      }
    }
  }

  /** One turn of the loop of `gf_isom_parse_webvtt_cue`: parses the next box of the
      stream and, for an 'iden', 'sttg', 'payl' or 'ctim' box, replaces the cue's id,
      settings, text or time with a copy of the box's string; `more` is whether bytes
      remain and the box could be parsed. */
  method ReadCueField(r: BitReader, cue: Cue, ghost whole: seq<byte>, ghost parsed: seq<Box>)
    returns (more: bool, ghost parsed': seq<Box>)
    requires r.Valid()
    requires ParseBoxes(whole) == parsed + ParseBoxes(r.data[r.pos..])
    requires cue.Value() == DecodedCue(parsed)
    modifies r, cue
    ensures r.Valid() && old(r.pos) <= r.pos
    ensures cue.Value() == DecodedCue(parsed')
    ensures more ==> r.pos > old(r.pos) && ParseBoxes(whole) == parsed' + ParseBoxes(r.data[r.pos..])
    ensures !more ==> ParseBoxes(whole) == parsed' && ParseBoxAt(r.data[r.pos..]).None?
  {
    ghost var window := r.data[r.pos..];
    var child := ParseChild(r, |r.data|);
    assert r.data[old(r.pos)..|r.data|] == window;
    if child.None? {
      ParseBoxesLoopExit(whole, parsed, window);
      return false, parsed;
    }
    ghost var b := ChildBox(child.value);
    ghost var n := |window| - (|r.data| - r.pos);
    ParseBoxesLoopStep(whole, parsed, window, b, n);
    assert window[n..] == r.data[r.pos..];
    DecodedCueSnoc(parsed, b);
    StoreField(cue, child.value);
    parsed' := parsed + [b];
    more := r.Available();
    if !more {
      ParseBoxesStop(r.data[r.pos..]);
    }
  }

  /** `gf_isom_parse_webvtt_cue`: a zero-filled cue whose strings are taken from the boxes
      of the stream from the current position on, until the stream ends or a box cannot
      be parsed. */
  method ParseWebVttCue(r: BitReader) returns (cue: Cue)
    requires r.Valid()
    modifies r
    ensures fresh(cue) && r.Valid() && old(r.pos) <= r.pos
    ensures cue.Value() == DecodedCue(ParseBoxes(r.data[old(r.pos)..]))
    ensures ParseBoxAt(r.data[r.pos..]).None?
  {
    cue := new Cue();
    var more := r.Available();
    if !more {
      ParseBoxesStop(r.data[r.pos..]);
      return;
    }
    ghost var whole := r.data[r.pos..];
    ghost var parsed: seq<Box> := [];
    while more
      invariant r.Valid() && old(r.pos) <= r.pos
      invariant fresh(cue)
      invariant more ==> ParseBoxes(whole) == parsed + ParseBoxes(r.data[r.pos..])
      invariant !more ==> ParseBoxes(whole) == parsed && ParseBoxAt(r.data[r.pos..]).None?
      invariant cue.Value() == DecodedCue(parsed)
      decreases more, |r.data| - r.pos
    {
      more, parsed := ReadCueField(r, cue, whole, parsed);
    }
  }

  /** The cue-box case of `gf_isom_parse_webvtt_sample` as written: the cue parser runs
      on the rest of the OUTER stream and its cue is appended to the sample. */
  method AppendCueFromStream(r: BitReader, s: WebVttSample, ghost vals: seq<CueValue>)
    returns (cue: Cue)
    requires r.Valid()
    requires CueValues(s.cues) == vals
    modifies r, s`cues
    ensures r.Valid() && old(r.pos) <= r.pos
    ensures fresh(cue) && s.cues == old(s.cues) + [cue]
    ensures CueValues(s.cues) == vals + [DecodedCue(ParseBoxes(r.data[old(r.pos)..]))]
    ensures ParseBoxes(r.data[r.pos..]) == []
  {
    ghost var cues := s.cues;
    cue := ParseWebVttCue(r);
    s.cues := s.cues + [cue];
    assert CueValues(cues) == vals;
    CueValuesSnoc(cues, cue);
    ParseBoxesStop(r.data[r.pos..]);
  }

  lemma CueValuesSnoc(cues: seq<Cue>, c: Cue)
    ensures CueValues(cues + [c]) == CueValues(cues) + [c.Value()]
  {
  }

  /** One turn of the loop of `gf_isom_parse_webvtt_sample` as written: parses the next
      box and, at a cue box, appends the cue parsed from the rest of the stream; `ok` is
      whether a box could be parsed. `vals` are the values of the sample's cues and
      `goal` is the decoding of the whole sample. */
  method ReadSampleBox(r: BitReader, s: WebVttSample, ghost vals: seq<CueValue>, ghost goal: seq<CueValue>)
    returns (ok: bool, ghost vals': seq<CueValue>)
    requires r.Valid()
    requires CueValues(s.cues) == vals
    requires vals + AsWrittenCues(ParseBoxes(r.data[r.pos..])) == goal
    modifies r, s`cues
    ensures r.Valid() && old(r.pos) <= r.pos
    ensures CueValues(s.cues) == vals'
    ensures ok ==> r.pos > old(r.pos) && vals' + AsWrittenCues(ParseBoxes(r.data[r.pos..])) == goal
    ensures !ok ==> vals' == goal
  {
    ghost var window := r.data[r.pos..];
    var box := ParseRawBox(r, |r.data|);
    assert r.data[old(r.pos)..|r.data|] == window;
    if box.None? {
      ParseBoxesStop(window);
      return false, vals;
    }
    ghost var n := |window| - (|r.data| - r.pos);
    AsWrittenStep(window, box.value, n);
    ghost var rest := r.data[r.pos..];
    assert window[n..] == rest;
    ok := true;
    if box.value.boxType != TypeVtcu {
      return ok, vals;
    }
    var cue := AppendCueFromStream(r, s, vals);
    vals' := vals + [DecodedCue(ParseBoxes(rest))];
    assert AsWrittenCues(ParseBoxes(r.data[r.pos..])) == [];
    assert vals' + [] == vals';
  }

  /** One box of the as-written decoding: a cue box yields the cue decoded from all the
      boxes that follow it; another box yields what the boxes after it yield. */
  lemma AsWrittenStep(window: seq<byte>, b: Box, n: nat)
    requires ParseBoxAt(window) == Some((b, n))
    ensures n <= |window|
    ensures AsWrittenCues(ParseBoxes(window)) ==
      if b.boxType == TypeVtcu then [DecodedCue(ParseBoxes(window[n..]))]
      else AsWrittenCues(ParseBoxes(window[n..]))
  {
    ParseBoxesStep(window, b, n);
    assert ([b] + ParseBoxes(window[n..]))[1..] == ParseBoxes(window[n..]);
  }

  /** `gf_isom_parse_webvtt_sample`: a new sample whose cues are the as-written decoding
      of the stream from the current position on; an exhausted stream gives no cues. */
  method ParseWebVttSample(r: BitReader) returns (s: WebVttSample)
    requires r.Valid()
    modifies r
    ensures fresh(s)
    ensures CueValues(s.cues) == DecodeSampleAsWritten(r.data[old(r.pos)..])
  {
    s := new WebVttSample();
    ghost var goal := DecodeSampleAsWritten(r.data[r.pos..]);
    var more := r.Available();
    if !more {
      ParseBoxesStop(r.data[r.pos..]);
      return;
    }
    ghost var vals: seq<CueValue> := [];
    while more
      invariant r.Valid() && old(r.pos) <= r.pos
      invariant fresh(s)
      invariant CueValues(s.cues) == vals
      invariant more ==> vals + AsWrittenCues(ParseBoxes(r.data[r.pos..])) == goal
      invariant !more ==> vals == goal
      decreases more, |r.data| - r.pos
    {
      var ok;
      ok, vals := ReadSampleBox(r, s, vals, goal);
      more := r.Available();
      if ok && !more {
        ParseBoxesStop(r.data[r.pos..]);
      }
      more := ok && more;
    }
  }

  /** One box of the intended decoding: a cue box yields the cue decoded from its own
      children; another box yields nothing. */
  lemma DecodedCuesStep(window: seq<byte>, b: Box, n: nat)
    requires ParseBoxAt(window) == Some((b, n))
    ensures n <= |window|
    ensures DecodedCues(ParseBoxes(window)) ==
      (if b.boxType == TypeVtcu then [DecodedCue(ParseBoxes(b.payload))] else [])
      + DecodedCues(ParseBoxes(window[n..]))
  {
    ParseBoxesStep(window, b, n);
    assert ([b] + ParseBoxes(window[n..]))[1..] == ParseBoxes(window[n..]);
  }

  /** The cue of a cue box as evidently intended: the cue parser runs on a stream over the
      box's own payload, and the cue is appended to the sample. */
  method AppendCueFromBox(b: Box, s: WebVttSample, ghost vals: seq<CueValue>) returns (cue: Cue)
    requires CueValues(s.cues) == vals
    modifies s`cues
    ensures fresh(cue) && s.cues == old(s.cues) + [cue]
    ensures CueValues(s.cues) == vals + [DecodedCue(ParseBoxes(b.payload))]
  {
    ghost var cues := s.cues;
    var sub := new BitReader(b.payload);
    cue := ParseWebVttCue(sub);
    assert sub.data[0..] == b.payload;
    s.cues := s.cues + [cue];
    assert CueValues(cues) == vals;
    CueValuesSnoc(cues, cue);
  }

  /** One turn of the loop of `gf_isom_parse_webvtt_sample` as evidently intended: parses
      the next box and, at a cue box, appends the cue decoded from that box's children. */
  method ReadSampleBoxIntended(r: BitReader, s: WebVttSample, ghost vals: seq<CueValue>, ghost goal: seq<CueValue>)
    returns (ok: bool, ghost vals': seq<CueValue>)
    requires r.Valid()
    requires CueValues(s.cues) == vals
    requires vals + DecodedCues(ParseBoxes(r.data[r.pos..])) == goal
    modifies r, s`cues
    ensures r.Valid() && old(r.pos) <= r.pos
    ensures CueValues(s.cues) == vals'
    ensures ok ==> r.pos > old(r.pos) && vals' + DecodedCues(ParseBoxes(r.data[r.pos..])) == goal
    ensures !ok ==> vals' == goal
  {
    ghost var window := r.data[r.pos..];
    var box := ParseRawBox(r, |r.data|);
    assert r.data[old(r.pos)..|r.data|] == window;
    if box.None? {
      ParseBoxesStop(window);
      return false, vals;
    }
    ghost var n := |window| - (|r.data| - r.pos);
    DecodedCuesStep(window, box.value, n);
    ghost var rest := r.data[r.pos..];
    assert window[n..] == rest;
    ok := true;
    if box.value.boxType != TypeVtcu {
      Regroup(vals, [], DecodedCues(ParseBoxes(rest)));
      return ok, vals;
    }
    ghost var d := DecodedCue(ParseBoxes(box.value.payload));
    var cue := AppendCueFromBox(box.value, s, vals);
    vals' := vals + [d];
    Regroup(vals, [d], DecodedCues(ParseBoxes(rest)));
  }

  lemma Regroup<T>(a: seq<T>, b: seq<T>, c: seq<T>)
    ensures a + (b + c) == (a + b) + c
    ensures b == [] ==> a + b == a && b + c == c
  {
  }

  /** `gf_isom_parse_webvtt_sample` as evidently intended: a new sample with one cue per cue
      box of the stream, each decoded from that box's own children. */
  method ParseWebVttSampleIntended(r: BitReader) returns (s: WebVttSample)
    requires r.Valid()
    modifies r
    ensures fresh(s)
    ensures CueValues(s.cues) == DecodeSample(r.data[old(r.pos)..])
  {
    s := new WebVttSample();
    ghost var goal := DecodeSample(r.data[r.pos..]);
    var more := r.Available();
    if !more {
      ParseBoxesStop(r.data[r.pos..]);
      return;
    }
    ghost var vals: seq<CueValue> := [];
    while more
      invariant r.Valid() && old(r.pos) <= r.pos
      invariant fresh(s)
      invariant CueValues(s.cues) == vals
      invariant more ==> vals + DecodedCues(ParseBoxes(r.data[r.pos..])) == goal
      invariant !more ==> vals == goal
      decreases more, |r.data| - r.pos
    {
      var ok;
      ok, vals := ReadSampleBoxIntended(r, s, vals, goal);
      more := r.Available();
      if ok && !more {
        ParseBoxesStop(r.data[r.pos..]);
      }
      more := ok && more;
    }
  }

  /** `gf_isom_parse_webvtt_sample_from_data`: no data or a zero length gives a sample
      without cues; otherwise the first `dataLength` bytes are decoded as written. */
  method ParseWebVttSampleFromData(data: Option<seq<byte>>, dataLength: nat) returns (s: WebVttSample)
    requires data.Some? ==> dataLength <= |data.value|
    ensures fresh(s)
    ensures CueValues(s.cues) ==
      if data.None? || dataLength == 0 then [] else DecodeSampleAsWritten(data.value[..dataLength])
  {
    if data.None? || dataLength == 0 {
      s := new WebVttSample();
      return;
    }
    var r := new BitReader(data.value[..dataLength]);
    s := ParseWebVttSample(r);
  }
}
