/** The boxes that carry WebVTT in the ISO base media file format (ISO/IEC 14496-30):
    string boxes ('iden', 'sttg', 'payl', 'ctim', 'vttC'), the cue box 'vtcu', the
    empty-cue box 'vtte' and the sample entry 'wvtt'. Each box is an object whose
    `size` field is filled in by its size computation before it is written, as in
    `src/isomedia/webvtt.c`. */
module WebVttBoxes {
  import opened Wrappers
  import opened Bytes
  import opened BitStream
  import opened BoxCodec

  /** What `boxstring_Write` emits: the header, then `size - 8` bytes of the string
      when there is one (no terminator). */
  function StringBoxBytes(t: FourCC, str: Option<seq<byte>>, size: nat): seq<byte>
    requires HeaderSize <= size <= MaxBoxSize
    requires str.Some? ==> size - HeaderSize <= |str.value|
  {
    Header(size, t) + (if str.Some? then str.value[..size - HeaderSize] else [])
  }

  /** Once its size is computed (`boxstring_Size`: header plus `strlen`), a string box is
      written as a well-formed box whose payload is exactly the C string. */
  lemma StringBoxSizedIsFrame(t: FourCC, s: seq<byte>)
    requires HeaderSize + |CStr(s)| <= MaxBoxSize
    ensures StringBoxBytes(t, Some(s), HeaderSize + |CStr(s)|) == Frame(Box(t, CStr(s)))
    ensures |Frame(Box(t, CStr(s)))| == HeaderSize + |CStr(s)|
  {
  }

  /** A string box ('iden', 'sttg', 'payl', 'ctim', 'vttC'). `str` is the in-memory
      buffer (None for a NULL pointer); C routines see it up to its first NUL. */
  class StringBox {
    const boxType: FourCC
    var str: Option<seq<byte>>
    var size: nat

    /** `boxstring_New` (no string) and `boxstring_new_with_data` (a copy of a C string). */
    constructor (t: FourCC, s: Option<CString>)
      ensures boxType == t && str == s && size == 0
    {
      boxType := t;
      str := s;
      size := 0;
    }

    /** The fields allow `boxstring_Write`: a size that fits the header and, when there is
        a string, no more payload bytes than the buffer holds. */
    predicate Writable()
      reads this
    {
      HeaderSize <= size <= MaxBoxSize && (str.Some? ==> size - HeaderSize <= |str.value|)
    }

    /** The size `boxstring_Size` computes. */
    predicate Sized()
      reads this
    {
      str.Some? && size == HeaderSize + |CStr(str.value)|
    }

    /** `boxstring_Read`. The box parser has consumed the header and left the payload
        length in `size`; the whole payload becomes the buffer (NUL bytes included), and
        the terminator is added in memory only. */
    method Read(r: BitReader)
      requires r.Valid() && r.pos + size <= |r.data|
      modifies this`str, r
      ensures r.Valid() && r.pos == old(r.pos) + size
      ensures str == Some(r.data[old(r.pos)..r.pos])
    {
      var bytes := r.ReadData(size);
      str := Some(bytes);
    }

    /** `boxstring_Size`: header size plus `strlen` of the string. */
    method ComputeSize()
      requires str.Some?
      modifies this`size
      ensures Sized()
    {
      size := HeaderSize;
      size := size + |CStr(str.value)|;
    }

    /** `boxstring_Write`: the header, then `size - 8` bytes of the string. */
    method Write(w: BitWriter)
      requires Writable()
      modifies w
      ensures w.data == old(w.data) + StringBoxBytes(boxType, str, size)
    {
      WriteHeader(w, size, boxType);
      if str.Some? {
        w.WriteData(str.value[..size - HeaderSize]);
      }
    }
  }

  /** A child box as the box parser hands it to a parent's add routine: string boxes are
      parsed into `StringBox` objects, every other type is kept as raw bytes. */
  datatype Child = StringChild(sb: StringBox) | RawChild(box: Box)

  function ChildType(c: Child): FourCC {
    match c
    case StringChild(sb) => sb.boxType
    case RawChild(b) => b.boxType
  }

  /** The box a child was parsed from. */
  function ChildBox(c: Child): Box
    reads if c.StringChild? then {c.sb} else {}
  {
    match c
    case StringChild(sb) => Box(sb.boxType, if sb.str.Some? then sb.str.value else [])
    case RawChild(b) => b
  }

  /** `gf_isom_parse_box` for the boxes of this layer: a string box is parsed by
      `boxstring_Read` (its size restored to the whole box afterwards), another type is
      kept raw. On a framing error nothing is consumed. */
  method ParseChild(r: BitReader, end: nat) returns (c: Option<Child>)
    requires r.Valid() && r.pos <= end <= |r.data|
    modifies r
    ensures r.Valid() && r.pos <= end
    ensures c.None? ==> ParseBoxAt(r.data[old(r.pos)..end]).None? && r.pos == old(r.pos)
    ensures c.Some? ==>
      && ParseBoxAt(r.data[old(r.pos)..end]) == Some((ChildBox(c.value), r.pos - old(r.pos)))
      && (c.value.StringChild? <==> IsStringBoxType(ChildType(c.value)))
      && (c.value.StringChild? ==>
            && fresh(c.value.sb) && c.value.sb.str.Some?
            && c.value.sb.size == r.pos - old(r.pos))
  {
    var h := ReadHeader(r, end);
    if h.None? {
      return None;
    }
    var t, len := h.value.0, h.value.1;
    if IsStringBoxType(t) {
      var sb := new StringBox(t, None);
      sb.size := len;
      sb.Read(r);
      sb.size := len + HeaderSize;
      c := Some(StringChild(sb));
    } else {
      var payload := r.ReadData(len);
      c := Some(RawChild(Box(t, payload)));
    }
  }

  /** The children of a cue box as values: the payload each known child carried (None
      when absent) and the other children, in order. */
  datatype CueChildren = CueChildren(
    id: Option<seq<byte>>,
    time: Option<seq<byte>>,
    settings: Option<seq<byte>>,
    payload: Option<seq<byte>>,
    others: seq<Box>)

  const NoCueChildren := CueChildren(None, None, None, None, [])

  /** `vtcu_Add` on values: 'ctim', 'iden', 'sttg', 'payl' replace the time, id, settings
      and payload child; any other child goes to the default list. */
  function AddCueChild(c: CueChildren, b: Box): CueChildren {
    if b.boxType == TypeCtim then c.(time := Some(b.payload))
    else if b.boxType == TypeIden then c.(id := Some(b.payload))
    else if b.boxType == TypeSttg then c.(settings := Some(b.payload))
    else if b.boxType == TypePayl then c.(payload := Some(b.payload))
    else c.(others := c.others + [b])
  }

  /** `vtcu_Read` on values: every child of the list is added in order. */
  function RouteCueChildren(c: CueChildren, bs: seq<Box>): CueChildren
    decreases |bs|
  {
    if bs == [] then c else RouteCueChildren(AddCueChild(c, bs[0]), bs[1..])
  }

  /** The last box of type `t` in `bs`, if any. */
  function LastOfType(bs: seq<Box>, t: FourCC): Option<seq<byte>>
    decreases |bs|
  {
    if bs == [] then None
    else if bs[|bs| - 1].boxType == t then Some(bs[|bs| - 1].payload)
    else LastOfType(bs[..|bs| - 1], t)
  }

  /** The boxes of `bs` whose type is none of the four known cue children. */
  function OtherChildren(bs: seq<Box>): seq<Box>
    decreases |bs|
  {
    if bs == [] then []
    else
      var t := bs[0].boxType;
      var known := t == TypeCtim || t == TypeIden || t == TypeSttg || t == TypePayl;
      (if known then [] else [bs[0]]) + OtherChildren(bs[1..])
  }

  lemma {:induction false} RouteAppend(c: CueChildren, bs: seq<Box>, b: Box)
    ensures RouteCueChildren(c, bs + [b]) == AddCueChild(RouteCueChildren(c, bs), b)
    decreases |bs|
  {
    if bs != [] {
      assert (bs + [b])[0] == bs[0] && (bs + [b])[1..] == bs[1..] + [b];
      RouteAppend(AddCueChild(c, bs[0]), bs[1..], b);
    }
  }

  lemma {:induction false} OtherChildrenAppend(bs: seq<Box>, b: Box)
    ensures OtherChildren(bs + [b]) == OtherChildren(bs) + OtherChildren([b])
    decreases |bs|
  {
    if bs != [] {
      assert (bs + [b])[0] == bs[0] && (bs + [b])[1..] == bs[1..] + [b];
      OtherChildrenAppend(bs[1..], b);
    } else {
      assert bs + [b] == [b];
    }
  }

  /** Routing a child list from an empty cue box: each known child is the LAST box of its
      type in the list (a repeated child replaces the earlier one), and the default list
      holds the other children in their order. */
  lemma {:induction false} RouteCueChildrenLastWins(bs: seq<Box>)
    ensures var c := RouteCueChildren(NoCueChildren, bs);
      && c.id == LastOfType(bs, TypeIden)
      && c.settings == LastOfType(bs, TypeSttg)
      && c.payload == LastOfType(bs, TypePayl)
      && c.time == LastOfType(bs, TypeCtim)
      && c.others == OtherChildren(bs)
    decreases |bs|
  {
    if bs != [] {
      var init, last := bs[..|bs| - 1], bs[|bs| - 1];
      assert bs == init + [last];
      RouteCueChildrenLastWins(init);
      RouteAppend(NoCueChildren, init, last);
      OtherChildrenAppend(init, last);
    }
  }

  /** The size of an optional child box as last computed (nothing when absent). */
  function ChildSize(sb: StringBox?): nat
    reads sb
  {
    if sb == null then 0 else sb.size
  }

  /** What writing an optional child box emits (nothing when absent). */
  function ChildBytes(sb: StringBox?): seq<byte>
    reads sb
    requires sb != null ==> sb.Writable()
  {
    if sb == null then [] else StringBoxBytes(sb.boxType, sb.str, sb.size)
  }

  /** The size `boxstring_Size` computes for an optional child (nothing when absent). */
  function StringSize(sb: StringBox?): nat
    reads sb
    requires HasString(sb)
  {
    if sb == null then 0 else HeaderSize + |CStr(sb.str.value)|
  }

  /** The optional child holds a string, so that `strlen` can be taken of it. */
  predicate HasString(sb: StringBox?)
    reads sb
  {
    sb != null ==> sb.str.Some?
  }

  /** The optional child's size has been computed. */
  predicate ChildSized(sb: StringBox?)
    reads sb
  {
    sb != null ==> sb.Sized()
  }

  /** The optional child may be written. */
  predicate ChildWritable(sb: StringBox?)
    reads sb
  {
    sb != null ==> sb.Writable()
  }

  /** `gf_isom_box_size` on an optional child, as the parents' size routines call it. */
  method SizeChild(sb: StringBox?)
    requires HasString(sb)
    modifies sb
    ensures ChildSized(sb)
    ensures sb != null ==> sb.str == old(sb.str)
  {
    if sb != null {
      sb.ComputeSize();
    }
  }

  /** `gf_isom_box_write` on an optional child. */
  method WriteChild(sb: StringBox?, w: BitWriter)
    requires ChildWritable(sb)
    modifies w
    ensures w.data == old(w.data) + ChildBytes(sb)
  {
    if sb != null {
      sb.Write(w);
    }
  }

  /** A cue box ('vtcu'): up to four known string children and a default list. */
  class CueBox {
    var id: StringBox?
    var time: StringBox?
    var settings: StringBox?
    var payload: StringBox?
    var others: seq<Box>
    var size: nat

    /** `vtcu_New`. */
    constructor ()
      ensures id == null && time == null && settings == null && payload == null
      ensures others == [] && size == 0
    {
      id, time, settings, payload := null, null, null, null;
      others := [];
      size := 0;
    }

    /** The child pointer `sb` holds the value `v`: null for None, else a box whose
        buffer is the value. */
    static predicate Holds(sb: StringBox?, v: Option<seq<byte>>)
      reads sb
    {
      if v.None? then sb == null else sb != null && sb.str == v
    }

    /** The box's children are the values `c`. */
    predicate HoldsChildren(c: CueChildren)
      reads this, id, time, settings, payload
    {
      Holds(id, c.id) && Holds(time, c.time) && Holds(settings, c.settings)
      && Holds(payload, c.payload) && others == c.others
    }

    /** `vtcu_Size`: the header, plus the size of each of id, settings and payload that is
        present, each computed first. The time child is not counted. */
    method ComputeSize()
      requires HasString(id) && HasString(settings) && HasString(payload)
      modifies this`size, id, settings, payload
      ensures ChildSized(id) && ChildSized(settings) && ChildSized(payload)
      ensures size == HeaderSize + StringSize(id) + StringSize(settings) + StringSize(payload)
      ensures id != null ==> id.str == old(id.str)
      ensures settings != null ==> settings.str == old(settings.str)
      ensures payload != null ==> payload.str == old(payload.str)
    {
      size := HeaderSize;
      if id != null {
        id.ComputeSize();
        size := size + id.size;
      }
      if settings != null {
        settings.ComputeSize();
        size := size + settings.size;
      }
      if payload != null {
        payload.ComputeSize();
        size := size + payload.size;
      }
    }

    /** `vtcu_Write`: the header, then id, settings and payload in that order, each only
        when present. The time child and the default list are not written. */
    method Write(w: BitWriter)
      requires HeaderSize <= size <= MaxBoxSize
      requires ChildWritable(id) && ChildWritable(settings) && ChildWritable(payload)
      modifies w
      ensures w.data == old(w.data) + Header(size, TypeVtcu) + ChildBytes(id)
                        + ChildBytes(settings) + ChildBytes(payload)
    {
      WriteHeader(w, size, TypeVtcu);
      WriteChild(id, w);
      WriteChild(settings, w);
      WriteChild(payload, w);
    }

    /** `vtcu_Add`: routes one parsed child. */
    method Add(child: Child, ghost before: CueChildren)
      requires HoldsChildren(before)
      requires child.StringChild? <==> IsStringBoxType(ChildType(child))
      requires child.StringChild? ==> child.sb.str.Some?
      requires child.StringChild? ==>
        child.sb != id && child.sb != time && child.sb != settings && child.sb != payload
      modifies this`id, this`time, this`settings, this`payload, this`others
      ensures HoldsChildren(AddCueChild(before, ChildBox(child)))
    {
      var t := ChildType(child);
      if t == TypeCtim {
        time := child.sb;
      } else if t == TypeIden {
        id := child.sb;
      } else if t == TypeSttg {
        settings := child.sb;
      } else if t == TypePayl {
        payload := child.sb;
      } else {
        others := others + [ChildBox(child)];
      }
    }

    /** One turn of the child-list loop of `vtcu_Read`: parses the next child from the
        window `r.data[r.pos..end]` and routes it; `done` when no box could be parsed. */
    method ReadNextChild(r: BitReader, end: nat, ghost whole: seq<byte>, ghost parsed: seq<Box>)
      returns (done: bool, ghost parsed': seq<Box>)
      requires r.Valid() && r.pos <= end <= |r.data|
      requires ParseBoxes(whole) == parsed + ParseBoxes(r.data[r.pos..end])
      requires HoldsChildren(RouteCueChildren(NoCueChildren, parsed))
      modifies this`id, this`time, this`settings, this`payload, this`others, r
      ensures r.Valid() && old(r.pos) <= r.pos <= end
      ensures done ==> ParseBoxes(whole) == parsed'
      ensures !done ==> r.pos > old(r.pos) && ParseBoxes(whole) == parsed' + ParseBoxes(r.data[r.pos..end])
      ensures HoldsChildren(RouteCueChildren(NoCueChildren, parsed'))
    {
      ghost var window := r.data[r.pos..end];
      ghost var before := RouteCueChildren(NoCueChildren, parsed);
      var child := ParseChild(r, end);
      if child.None? {
        ParseBoxesLoopExit(whole, parsed, window);
        return true, parsed;
      }
      ghost var b := ChildBox(child.value);
      ghost var n := |window| - (end - r.pos);
      ParseBoxesLoopStep(whole, parsed, window, b, n);
      assert window[n..] == r.data[r.pos..end];
      Add(child.value, before);
      RouteAppend(NoCueChildren, parsed, b);
      done, parsed' := false, parsed + [b];
    }

    /** `vtcu_Read` on a new cue box: the payload (`size` bytes) is read as a child list,
        each child routed by `Add`; parsing the list stops at the first framing error and
        the rest of the payload is skipped. */
    method Read(r: BitReader)
      requires r.Valid() && r.pos + size <= |r.data|
      requires HoldsChildren(NoCueChildren)
      modifies this`id, this`time, this`settings, this`payload, this`others, r
      ensures r.Valid() && r.pos == old(r.pos) + size
      ensures HoldsChildren(RouteCueChildren(NoCueChildren, ParseBoxes(r.data[old(r.pos)..r.pos])))
    {
      var end := r.pos + size;
      ghost var whole := r.data[r.pos..end];
      ghost var parsed: seq<Box> := [];
      var done := false;
      while !done
        invariant r.Valid() && old(r.pos) <= r.pos <= end
        invariant done ==> ParseBoxes(whole) == parsed
        invariant !done ==> ParseBoxes(whole) == parsed + ParseBoxes(r.data[r.pos..end])
        invariant HoldsChildren(RouteCueChildren(NoCueChildren, parsed))
        decreases !done, end - r.pos
      {
        done, parsed := ReadNextChild(r, end, whole, parsed);
      }
      r.Seek(end);
    }
  }

  /** The empty-cue box ('vtte'): no fields of its own; any children it is read with go
      to its default list. */
  class EmptyCueBox {
    var others: seq<Box>
    var size: nat

    /** `vtte_New`. */
    constructor ()
      ensures others == [] && size == 0
    {
      others := [];
      size := 0;
    }

    /** `vtte_Size`: the header only. */
    method ComputeSize()
      modifies this`size
      ensures size == HeaderSize
    {
      size := HeaderSize;
    }

    /** `vtte_Write`: the header only; children are never written. */
    method Write(w: BitWriter)
      requires HeaderSize <= size <= MaxBoxSize
      modifies w
      ensures w.data == old(w.data) + Header(size, TypeVtte)
    {
      WriteHeader(w, size, TypeVtte);
    }

    /** One turn of the child-list loop of `vtte_Read`. */
    method ReadNextChild(r: BitReader, end: nat, ghost whole: seq<byte>, ghost parsed: seq<Box>)
      returns (done: bool, ghost parsed': seq<Box>)
      requires r.Valid() && r.pos <= end <= |r.data|
      requires ParseBoxes(whole) == parsed + ParseBoxes(r.data[r.pos..end])
      requires others == parsed
      modifies this`others, r
      ensures r.Valid() && old(r.pos) <= r.pos <= end
      ensures done ==> ParseBoxes(whole) == parsed'
      ensures !done ==> r.pos > old(r.pos) && ParseBoxes(whole) == parsed' + ParseBoxes(r.data[r.pos..end])
      ensures others == parsed'
    {
      ghost var window := r.data[r.pos..end];
      var child := ParseChild(r, end);
      if child.None? {
        ParseBoxesLoopExit(whole, parsed, window);
        return true, parsed;
      }
      var b := ChildBox(child.value);
      ghost var n := |window| - (end - r.pos);
      ParseBoxesLoopStep(whole, parsed, window, b, n);
      assert window[n..] == r.data[r.pos..end];
      others := others + [b];
      done, parsed' := false, parsed + [b];
    }

    /** `vtte_Read` on a new box: every child of the payload goes to the default list. */
    method Read(r: BitReader)
      requires r.Valid() && r.pos + size <= |r.data|
      requires others == []
      modifies this`others, r
      ensures r.Valid() && r.pos == old(r.pos) + size
      ensures others == ParseBoxes(r.data[old(r.pos)..r.pos])
    {
      var end := r.pos + size;
      ghost var whole := r.data[r.pos..end];
      ghost var parsed: seq<Box> := [];
      var done := false;
      while !done
        invariant r.Valid() && old(r.pos) <= r.pos <= end
        invariant done ==> ParseBoxes(whole) == parsed
        invariant !done ==> ParseBoxes(whole) == parsed + ParseBoxes(r.data[r.pos..end])
        invariant others == parsed
        decreases !done, end - r.pos
      {
        done, parsed := ReadNextChild(r, end, whole, parsed);
      }
      r.Seek(end);
    }
  }

  /** An empty-cue box as written: a bare header whose size is the header's, which parses
      back as a 'vtte' box with no payload. */
  lemma EmptyCueBoxIsBareBox(rest: seq<byte>)
    ensures Header(HeaderSize, TypeVtte) == Frame(Box(TypeVtte, []))
    ensures ParseBoxAt(Header(HeaderSize, TypeVtte) + rest) == Some((Box(TypeVtte, []), HeaderSize))
  {
    assert Frame(Box(TypeVtte, [])) == Header(HeaderSize, TypeVtte) + [];
    ParseFrame(Box(TypeVtte, []), rest);
  }

  /** The children of a sample entry as values: the configuration string box's payload
      and the other children, in order. */
  datatype EntryChildren = EntryChildren(config: Option<seq<byte>>, others: seq<Box>)

  const NoEntryChildren := EntryChildren(None, [])

  /** `wvtt_Add` on values: a 'vttC' child replaces the configuration, any other child
      goes to the default list. */
  function AddEntryChild(c: EntryChildren, b: Box): EntryChildren {
    if b.boxType == TypeVttC then c.(config := Some(b.payload))
    else c.(others := c.others + [b])
  }

  /** `wvtt_Read` on values. */
  function RouteEntryChildren(c: EntryChildren, bs: seq<Box>): EntryChildren
    decreases |bs|
  {
    if bs == [] then c else RouteEntryChildren(AddEntryChild(c, bs[0]), bs[1..])
  }

  /** The boxes of `bs` that are not 'vttC'. */
  function NonConfigChildren(bs: seq<Box>): seq<Box>
    decreases |bs|
  {
    if bs == [] then []
    else (if bs[0].boxType == TypeVttC then [] else [bs[0]]) + NonConfigChildren(bs[1..])
  }

  lemma {:induction false} RouteEntryAppend(c: EntryChildren, bs: seq<Box>, b: Box)
    ensures RouteEntryChildren(c, bs + [b]) == AddEntryChild(RouteEntryChildren(c, bs), b)
    decreases |bs|
  {
    if bs != [] {
      assert (bs + [b])[0] == bs[0] && (bs + [b])[1..] == bs[1..] + [b];
      RouteEntryAppend(AddEntryChild(c, bs[0]), bs[1..], b);
    }
  }

  lemma {:induction false} NonConfigChildrenAppend(bs: seq<Box>, b: Box)
    ensures NonConfigChildren(bs + [b]) == NonConfigChildren(bs) + NonConfigChildren([b])
    decreases |bs|
  {
    if bs != [] {
      assert (bs + [b])[0] == bs[0] && (bs + [b])[1..] == bs[1..] + [b];
      NonConfigChildrenAppend(bs[1..], b);
    } else {
      assert bs + [b] == [b];
    }
  }

  /** Reading a sample entry's children: the configuration is the last 'vttC' child and
      the default list holds every other child in order. */
  lemma {:induction false} RouteEntryChildrenLastWins(bs: seq<Box>)
    ensures var c := RouteEntryChildren(NoEntryChildren, bs);
      c.config == LastOfType(bs, TypeVttC) && c.others == NonConfigChildren(bs)
    decreases |bs|
  {
    if bs != [] {
      var init, last := bs[..|bs| - 1], bs[|bs| - 1];
      assert bs == init + [last];
      RouteEntryChildrenLastWins(init);
      RouteEntryAppend(NoEntryChildren, init, last);
      NonConfigChildrenAppend(init, last);
    }
  }

  /** A sample description entry; a WebVTT one ('wvtt') carries its configuration in a
      'vttC' string box. The data reference index is a field of the entry that the
      WebVTT routines neither write nor read. */
  class SampleEntryBox {
    const boxType: FourCC
    var config: StringBox?
    var dataReferenceIndex: nat
    var others: seq<Box>
    var size: nat

    /** `wvtt_New` (through `gf_isom_box_new`) for `t == TypeWvtt`, or another entry type. */
    constructor (t: FourCC)
      ensures boxType == t && config == null && dataReferenceIndex == 0
      ensures others == [] && size == 0
    {
      boxType := t;
      config := null;
      dataReferenceIndex := 0;
      others := [];
      size := 0;
    }

    /** The entry's children are the values `c`. */
    predicate HoldsChildren(c: EntryChildren)
      reads this, config
    {
      CueBox.Holds(config, c.config) && others == c.others
    }

    /** `wvtt_Add`: routes one parsed child. */
    method Add(child: Child, ghost before: EntryChildren)
      requires HoldsChildren(before)
      requires child.StringChild? <==> IsStringBoxType(ChildType(child))
      requires child.StringChild? ==> child.sb.str.Some?
      modifies this`config, this`others
      ensures HoldsChildren(AddEntryChild(before, ChildBox(child)))
    {
      if ChildType(child) == TypeVttC {
        config := child.sb;
      } else {
        others := others + [ChildBox(child)];
      }
    }

    /** One turn of the child-list loop of `wvtt_Read`. */
    method ReadNextChild(r: BitReader, end: nat, ghost whole: seq<byte>, ghost parsed: seq<Box>)
      returns (done: bool, ghost parsed': seq<Box>)
      requires r.Valid() && r.pos <= end <= |r.data|
      requires ParseBoxes(whole) == parsed + ParseBoxes(r.data[r.pos..end])
      requires HoldsChildren(RouteEntryChildren(NoEntryChildren, parsed))
      modifies this`config, this`others, r
      ensures r.Valid() && old(r.pos) <= r.pos <= end
      ensures done ==> ParseBoxes(whole) == parsed'
      ensures !done ==> r.pos > old(r.pos) && ParseBoxes(whole) == parsed' + ParseBoxes(r.data[r.pos..end])
      ensures HoldsChildren(RouteEntryChildren(NoEntryChildren, parsed'))
    {
      ghost var window := r.data[r.pos..end];
      ghost var before := RouteEntryChildren(NoEntryChildren, parsed);
      var child := ParseChild(r, end);
      if child.None? {
        ParseBoxesLoopExit(whole, parsed, window);
        return true, parsed;
      }
      ghost var b := ChildBox(child.value);
      ghost var n := |window| - (end - r.pos);
      ParseBoxesLoopStep(whole, parsed, window, b, n);
      assert window[n..] == r.data[r.pos..end];
      Add(child.value, before);
      RouteEntryAppend(NoEntryChildren, parsed, b);
      done, parsed' := false, parsed + [b];
    }

    /** `wvtt_Read` on a new entry: the payload is read as a child list routed by `Add`. */
    method Read(r: BitReader)
      requires r.Valid() && r.pos + size <= |r.data|
      requires HoldsChildren(NoEntryChildren)
      modifies this`config, this`others, r
      ensures r.Valid() && r.pos == old(r.pos) + size
      ensures HoldsChildren(RouteEntryChildren(NoEntryChildren, ParseBoxes(r.data[old(r.pos)..r.pos])))
    {
      var end := r.pos + size;
      ghost var whole := r.data[r.pos..end];
      ghost var parsed: seq<Box> := [];
      var done := false;
      while !done
        invariant r.Valid() && old(r.pos) <= r.pos <= end
        invariant done ==> ParseBoxes(whole) == parsed
        invariant !done ==> ParseBoxes(whole) == parsed + ParseBoxes(r.data[r.pos..end])
        invariant HoldsChildren(RouteEntryChildren(NoEntryChildren, parsed))
        decreases !done, end - r.pos
      {
        done, parsed := ReadNextChild(r, end, whole, parsed);
      }
      r.Seek(end);
    }

    /** `wvtt_Size`: the header plus, when there is a configuration, its size computed
        first. */
    method ComputeSize()
      requires HasString(config)
      modifies this`size, config
      ensures ChildSized(config) && size == HeaderSize + ChildSize(config)
      ensures config != null ==> config.str == old(config.str)
    {
      size := HeaderSize;
      SizeChild(config);
      size := size + ChildSize(config);
    }

    /** `wvtt_Write`: the header with the entry's own type, then the configuration when
        there is one. */
    method Write(w: BitWriter)
      requires HeaderSize <= size <= MaxBoxSize && ChildWritable(config)
      modifies w
      ensures w.data == old(w.data) + Header(size, boxType) + ChildBytes(config)
    {
      WriteHeader(w, size, boxType);
      WriteChild(config, w);
    }
  }

  /** A sample entry with a configuration, sized by `wvtt_Size` and written by
      `wvtt_Write`, is the frame of a box of the entry's type whose payload is the frame of
      the 'vttC' box holding the C string; it parses back as that box, and reading its
      children gives back the configuration. */
  lemma EntryRoundTrip(t: FourCC, s: seq<byte>, rest: seq<byte>)
    requires 2 * HeaderSize + |CStr(s)| <= MaxBoxSize
    ensures var inner := Frame(Box(TypeVttC, CStr(s)));
      && Header(HeaderSize + (HeaderSize + |CStr(s)|), t)
           + StringBoxBytes(TypeVttC, Some(s), HeaderSize + |CStr(s)|) == Frame(Box(t, inner))
      && ParseBoxAt(Frame(Box(t, inner)) + rest) == Some((Box(t, inner), HeaderSize + |inner|))
      && ParseBoxes(inner) == [Box(TypeVttC, CStr(s))]
      && RouteEntryChildren(NoEntryChildren, ParseBoxes(inner)) == EntryChildren(Some(CStr(s)), [])
  {
    var b := Box(TypeVttC, CStr(s));
    StringBoxSizedIsFrame(TypeVttC, s);
    var inner := Frame(b);
    assert |inner| == HeaderSize + |CStr(s)|;
    assert Frame(Box(t, inner)) == Header(HeaderSize + |inner|, t) + inner;
    ParseFrame(Box(t, inner), rest);
    assert Frames([b]) == inner + Frames([]);
    assert Frames([b]) == inner;
    ParseFrames([b]);
    assert RouteEntryChildren(NoEntryChildren, [b]) == RouteEntryChildren(AddEntryChild(NoEntryChildren, b), []);
  }

  /** A sample entry without a configuration is written as a bare header, which parses
      back as a box of the entry's type with no children and no configuration. */
  lemma EntryWithoutConfigRoundTrip(t: FourCC, rest: seq<byte>)
    ensures Header(HeaderSize + 0, t) + [] == Frame(Box(t, []))
    ensures ParseBoxAt(Frame(Box(t, [])) + rest) == Some((Box(t, []), HeaderSize))
    ensures RouteEntryChildren(NoEntryChildren, ParseBoxes([])) == NoEntryChildren
  {
    ParseFrame(Box(t, []), rest);
    ParseFrames([]);
  }
}
