/** WebVTT cues and samples in memory: a cue's timing, its optional id, settings, text and
    current-time strings, and the split bookkeeping; the two in-place cue operations
    `gf_webvtt_cue_split_at` and `gf_isom_webvtt_cue_add_property`. */
module Cues {
  import opened Wrappers
  import opened Bytes
  import opened ErrorCodes

  /** A WebVTT timestamp: hours, minutes, seconds and milliseconds. */
  datatype Timestamp = Timestamp(hour: nat, min: nat, sec: nat, ms: nat)

  const ZeroTime := Timestamp(0, 0, 0, 0)

  /** The instant a timestamp denotes, in milliseconds. */
  function Millis(t: Timestamp): nat {
    ((t.hour * 60 + t.min) * 60 + t.sec) * 1000 + t.ms
  }

  predicate Before(a: Timestamp, b: Timestamp) {
    Millis(a) < Millis(b)
  }

  /** A cue as a value: the fields of `GF_WebVTTCue`. Absent strings are None (a NULL
      pointer); present ones are C strings. */
  datatype CueValue = CueValue(
    start: Timestamp,
    end: Timestamp,
    id: Option<CString>,
    settings: Option<CString>,
    text: Option<CString>,
    time: Option<CString>,
    split: bool,
    origStart: Timestamp,
    origEnd: Timestamp)

  /** A zero-filled cue (`GF_SAFEALLOC`). */
  const EmptyCue := CueValue(ZeroTime, ZeroTime, None, None, None, None, false, ZeroTime, ZeroTime)

  /** `gf_webvtt_cue_split_at` on values, as written: the cue keeps `[start, t)`, the new
      cue gets `[t, end)` with copies of id, settings and text (not the time string), and
      both record the cue's CURRENT extent as their original one, even when the cue had
      already been split. */
  function SplitCue(c: CueValue, t: Timestamp): (halves: (CueValue, CueValue)) {
    (c.(split := true, origStart := c.start, origEnd := c.end, end := t),
     CueValue(t, c.end, c.id, c.settings, c.text, None, true, c.start, c.end))
  }

  /** Splitting a cue at `t` gives two non-empty cues exactly when `t` lies strictly
      inside the cue; the two spans meet at `t` and cover the cue, both are marked split
      with the cue's current extent as origin, and the new cue carries the same id,
      settings and text. */
  lemma SplitCueSpans(c: CueValue, t: Timestamp)
    ensures var (head, tail) := SplitCue(c, t);
      && ((Before(c.start, t) && Before(t, c.end)) <==>
          (Before(head.start, head.end) && Before(tail.start, tail.end)))
      && head.start == c.start && head.end == tail.start == t && tail.end == c.end
      && head.split && tail.split
      && head.origStart == tail.origStart == c.start
      && head.origEnd == tail.origEnd == c.end
      && tail.id == c.id && tail.settings == c.settings && tail.text == c.text
      && head.id == c.id && head.settings == c.settings && head.text == c.text
      && head.time == c.time
  {
  }

  /** The extent a cue had before any split. */
  function Origin(c: CueValue): (Timestamp, Timestamp) {
    if c.split then (c.origStart, c.origEnd) else (c.start, c.end)
  }

  /** Splitting the second half again, as written, forgets the extent the cue had before
      the first split: `[0 ms, 10 ms)` split at 4 ms and the new cue split at 7 ms gives
      cues whose origin is `[4 ms, 10 ms)`. */
  lemma SplitTwiceLosesOrigin()
    ensures var c := EmptyCue.(end := Timestamp(0, 0, 0, 10));
      var (_, tail) := SplitCue(c, Timestamp(0, 0, 0, 4));
      var (head2, tail2) := SplitCue(tail, Timestamp(0, 0, 0, 7));
      && Before(tail.start, Timestamp(0, 0, 0, 7)) && Before(Timestamp(0, 0, 0, 7), tail.end)
      && Origin(c) == (ZeroTime, Timestamp(0, 0, 0, 10))
      && Origin(head2) == Origin(tail2) == (Timestamp(0, 0, 0, 4), Timestamp(0, 0, 0, 10))
      && Origin(head2) != Origin(c)
  {
  }

  /** `gf_webvtt_cue_split_at` as evidently intended: the original extent is recorded
      only when the cue is not already split. */
  function SplitCueKeepingOrigin(c: CueValue, t: Timestamp): (halves: (CueValue, CueValue)) {
    var (os, oe) := Origin(c);
    (c.(split := true, origStart := os, origEnd := oe, end := t),
     CueValue(t, c.end, c.id, c.settings, c.text, None, true, os, oe))
  }

  /** Splitting a cue repeatedly at the given instants, each time splitting the piece
      that came last: the pieces in time order. */
  function SplitRepeatedly(c: CueValue, ts: seq<Timestamp>): (pieces: seq<CueValue>)
    ensures |pieces| == |ts| + 1
    decreases |ts|
  {
    if ts == [] then [c]
    else
      var (head, tail) := SplitCueKeepingOrigin(c, ts[0]);
      [head] + SplitRepeatedly(tail, ts[1..])
  }

  /** The instants lie strictly inside the cue, in increasing order. */
  predicate InsideInOrder(c: CueValue, ts: seq<Timestamp>) {
    && (forall i :: 0 <= i < |ts| ==> Before(c.start, ts[i]) && Before(ts[i], c.end))
    && (forall i, j :: 0 <= i < j < |ts| ==> Before(ts[i], ts[j]))
  }

  /** With the corrected split, any number of splits keeps the cue's original extent on
      every piece; when the cue is non-empty and the split instants lie inside it in
      increasing order, every piece is non-empty and the pieces tile the cue: the first starts where the cue
      started, each ends where the next starts, the last ends where the cue ended. */
  lemma {:induction false} SplitRepeatedlyKeepsOrigin(c: CueValue, ts: seq<Timestamp>)
    ensures var pieces := SplitRepeatedly(c, ts);
      && (forall p <- pieces :: Origin(p) == Origin(c))
      && pieces[0].start == c.start && pieces[|pieces| - 1].end == c.end
      && (forall i :: 0 <= i < |pieces| - 1 ==> pieces[i].end == pieces[i + 1].start)
      && (Before(c.start, c.end) && InsideInOrder(c, ts) ==> forall p <- pieces :: Before(p.start, p.end))
    decreases |ts|
  {
    if ts != [] {
      var (head, tail) := SplitCueKeepingOrigin(c, ts[0]);
      var rest := SplitRepeatedly(tail, ts[1..]);
      SplitRepeatedlyKeepsOrigin(tail, ts[1..]);
      var pieces := [head] + rest;
      assert pieces == SplitRepeatedly(c, ts);
      assert Origin(tail) == Origin(head) == Origin(c);
      if Before(c.start, c.end) && InsideInOrder(c, ts) {
        assert Before(c.start, ts[0]) && Before(ts[0], c.end);
        assert InsideInOrder(tail, ts[1..]) by {
          forall i | 0 <= i < |ts[1..]|
            ensures Before(tail.start, ts[1..][i]) && Before(ts[1..][i], tail.end)
          {
            assert ts[1..][i] == ts[i + 1];
            assert Before(ts[0], ts[i + 1]);
          }
          forall i, j | 0 <= i < j < |ts[1..]|
            ensures Before(ts[1..][i], ts[1..][j])
          {
            assert ts[1..][i] == ts[i + 1] && ts[1..][j] == ts[j + 1];
          }
        }
        assert Before(head.start, head.end);
        assert forall p <- pieces :: p == head || p in rest;
      }
    }
  }

  /** Which string of a cue a fragment goes to (`GF_WebVTTCuePropertyType`). */
  datatype PropertyKind = IdProperty | SettingsProperty | PayloadProperty | TimeProperty

  function Property(c: CueValue, kind: PropertyKind): Option<CString> {
    match kind
    case IdProperty => c.id
    case SettingsProperty => c.settings
    case PayloadProperty => c.text
    case TimeProperty => c.time
  }

  function SetProperty(c: CueValue, kind: PropertyKind, v: Option<CString>): CueValue {
    match kind
    case IdProperty => c.(id := v)
    case SettingsProperty => c.(settings := v)
    case PayloadProperty => c.(text := v)
    case TimeProperty => c.(time := v)
  }

  lemma ConcatNoNul(a: CString, b: CString)
    ensures NoNul(a + b)
  {
    assert forall i :: 0 <= i < |a + b| ==> (a + b)[i] == if i < |a| then a[i] else b[i - |a|];
  }

  /** A string with a fragment appended (`strcpy` after the old end), or the fragment alone
      when there was no string (`gf_strdup`). */
  function AppendFragment(field: Option<CString>, data: CString): (r: CString)
    ensures |r| == (if field.Some? then |field.value| else 0) + |data|
  {
    if field.None? then data
    else
      ConcatNoNul(field.value, data);
      field.value + data
  }

  /** `gf_isom_webvtt_cue_add_property` on values, for a non-null cue: a zero `textLen`
      leaves the cue as it was; otherwise the selected string grows by the fragment.
      `textLen` only gates the call: the fragment is copied up to its terminator. */
  function AddPropertyValue(c: CueValue, kind: PropertyKind, data: CString, textLen: nat): CueValue {
    if textLen == 0 then c else SetProperty(c, kind, Some(AppendFragment(Property(c, kind), data)))
  }

  /** Adding a fragment changes the selected string only: it is the old string followed by
      the fragment (or the fragment alone), every other field is unchanged; a zero length
      changes nothing. */
  lemma AddPropertyValueEffect(c: CueValue, kind: PropertyKind, data: CString, textLen: nat)
    ensures var r := AddPropertyValue(c, kind, data, textLen);
      && (textLen == 0 ==> r == c)
      && (textLen != 0 ==>
            && Property(r, kind) == Some(if Property(c, kind).Some? then Property(c, kind).value + data else data)
            && (forall k :: k != kind ==> Property(r, k) == Property(c, k))
            && r.start == c.start && r.end == c.end && r.split == c.split
            && r.origStart == c.origStart && r.origEnd == c.origEnd)
  {
  }

  /** A run of fragments, each with the length its caller passed. */
  function AddFragments(c: CueValue, kind: PropertyKind, frags: seq<(CString, nat)>): CueValue
    decreases |frags|
  {
    if frags == [] then c
    else AddFragments(AddPropertyValue(c, kind, frags[0].0, frags[0].1), kind, frags[1..])
  }

  /** The fragments the calls keep: those passed with a non-zero length, joined. */
  function KeptText(frags: seq<(CString, nat)>): seq<byte>
    decreases |frags|
  {
    if frags == [] then []
    else (if frags[0].1 == 0 then [] else frags[0].0) + KeptText(frags[1..])
  }

  function Prior(field: Option<CString>): seq<byte> {
    if field.Some? then field.value else []
  }

  /** Streaming a property in fragments: the string ends up as what it was followed by
      every fragment passed with a non-zero length, in order (absent still when no such
      fragment came); the other properties are unchanged. */
  lemma {:induction false} AddFragmentsAccumulates(c: CueValue, kind: PropertyKind, frags: seq<(CString, nat)>)
    ensures var r := AddFragments(c, kind, frags);
      && (Property(r, kind).Some? <==>
            Property(c, kind).Some? || exists i :: 0 <= i < |frags| && frags[i].1 != 0)
      && (Property(r, kind).Some? ==> Property(r, kind).value == Prior(Property(c, kind)) + KeptText(frags))
      && (forall k :: k != kind ==> Property(r, k) == Property(c, k))
    decreases |frags|
  {
    if frags != [] {
      var c' := AddPropertyValue(c, kind, frags[0].0, frags[0].1);
      AddPropertyValueEffect(c, kind, frags[0].0, frags[0].1);
      AddFragmentsAccumulates(c', kind, frags[1..]);
      var rest := frags[1..];
      if Property(c, kind).None? && frags[0].1 == 0 {
        assert (exists i :: 0 <= i < |frags| && frags[i].1 != 0) <==>
               (exists i :: 0 <= i < |rest| && rest[i].1 != 0) by {
          if exists i :: 0 <= i < |frags| && frags[i].1 != 0 {
            var i :| 0 <= i < |frags| && frags[i].1 != 0;
            assert rest[i - 1] == frags[i];
          }
          if exists i :: 0 <= i < |rest| && rest[i].1 != 0 {
            var i :| 0 <= i < |rest| && rest[i].1 != 0;
            assert frags[i + 1] == rest[i];
          }
        }
      }
    }
  }

  /** A cue object (`GF_WebVTTCue`). */
  class Cue {
    var start: Timestamp
    var end: Timestamp
    var id: Option<CString>
    var settings: Option<CString>
    var text: Option<CString>
    var time: Option<CString>
    var split: bool
    var origStart: Timestamp
    var origEnd: Timestamp

    function Value(): CueValue
      reads this
    {
      CueValue(start, end, id, settings, text, time, split, origStart, origEnd)
    }

    /** `gf_webvtt_cue_new`: a zero-filled cue. */
    constructor ()
      ensures Value() == EmptyCue
    {
      start, end := ZeroTime, ZeroTime;
      id, settings, text, time := None, None, None, None;
      split := false;
      origStart, origEnd := ZeroTime, ZeroTime;
    }

    /** `gf_webvtt_cue_split_at`: this cue is cut to end at `t` and a new cue is returned
        for the rest, as `SplitCue` states. */
    method SplitAt(t: Timestamp) returns (dup: Cue)
      modifies this
      ensures fresh(dup)
      ensures (Value(), dup.Value()) == SplitCue(old(Value()), t)
    {
      split := true;
      origStart := start;
      origEnd := end;
      dup := new Cue();
      dup.split := true;
      dup.start := t;
      dup.end := end;
      dup.origStart := origStart;
      dup.origEnd := origEnd;
      dup.id := id;
      dup.settings := settings;
      dup.text := text;
      end := t;
    }
  }

  /** `gf_webvtt_cue_split_at` as evidently intended: as `SplitAt`, except that a cue
      that was already split keeps the original extent it records, as
      `SplitCueKeepingOrigin` states. */
  method SplitAtKeepingOrigin(cue: Cue, t: Timestamp) returns (dup: Cue)
    modifies cue
    ensures fresh(dup)
    ensures (cue.Value(), dup.Value()) == SplitCueKeepingOrigin(old(cue.Value()), t)
  {
    if !cue.split {
      cue.origStart := cue.start;
      cue.origEnd := cue.end;
    }
    cue.split := true;
    dup := new Cue();
    dup.split := true;
    dup.start := t;
    dup.end := cue.end;
    dup.origStart := cue.origStart;
    dup.origEnd := cue.origEnd;
    dup.id := cue.id;
    dup.settings := cue.settings;
    dup.text := cue.text;
    cue.end := t;
  }

  /** `gf_isom_webvtt_cue_add_property`: a null cue is a bad parameter; otherwise the
      cue becomes `AddPropertyValue` of what it was. */
  method AddProperty(cue: Cue?, kind: PropertyKind, textData: CString, textLen: nat) returns (e: Err)
    modifies cue
    ensures cue == null ==> e == BadParam
    ensures cue != null ==> e == Ok && cue.Value() == AddPropertyValue(old(cue.Value()), kind, textData, textLen)
  {
    if cue == null {
      return BadParam;
    }
    if textLen == 0 {
      return Ok;
    }
    var prop: Option<CString>;
    match kind {
      case IdProperty => prop := cue.id;
      case SettingsProperty => prop := cue.settings;
      case PayloadProperty => prop := cue.text;
      case TimeProperty => prop := cue.time;
    }
    var grown := AppendFragment(prop, textData);
    match kind {
      case IdProperty => cue.id := Some(grown);
      case SettingsProperty => cue.settings := Some(grown);
      case PayloadProperty => cue.text := Some(grown);
      case TimeProperty => cue.time := Some(grown);
    }
    e := Ok;
  }

  /** A WebVTT sample: its cues, in order (`GF_WebVTTSample`). */
  class WebVttSample {
    var cues: seq<Cue>

    /** `gf_isom_new_webvtt_sample`: no cues. */
    constructor ()
      ensures cues == []
    {
      cues := [];
    }
  }

  /** The values of a list of cue objects. */
  function CueValues(cues: seq<Cue>): (vs: seq<CueValue>)
    reads cues
    ensures |vs| == |cues|
    ensures forall i :: 0 <= i < |cues| ==> vs[i] == cues[i].Value()
    decreases |cues|
  {
    if cues == [] then [] else [cues[0].Value()] + CueValues(cues[1..])
  }
}
