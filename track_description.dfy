/** The two routines that edit a WebVTT track's sample descriptions:
    `gf_isom_update_webvtt_description` replaces the configuration ('vttC') of an existing
    'wvtt' entry, and `gf_isom_new_webvtt_description` appends a new 'wvtt' entry. Both run
    a sequence of checks, in source order, and change nothing when one fails. The checks'
    inputs that live elsewhere in the library (whether the movie is open for writing, the
    track lookup, the data reference table, the clock) are parameters. */
module TrackDescription {
  import opened Wrappers
  import opened Bytes
  import opened BoxCodec
  import opened WebVttBoxes
  import opened ErrorCodes

  /** `GF_ISOM_MEDIA_TEXT`: the handler type 'text'. */
  const HandlerText: FourCC := 0x74657874

  /** The media of a track: its handler type, the media header's modification time and
      the sample description list (`SampleDescription->other_boxes`). */
  class Media {
    const handlerType: FourCC
    var modificationTime: nat
    var descriptions: seq<SampleEntryBox>

    constructor (handler: FourCC, time: nat, entries: seq<SampleEntryBox>)
      ensures handlerType == handler && modificationTime == time && descriptions == entries
    {
      handlerType := handler;
      modificationTime := time;
      descriptions := entries;
    }
  }

  /** A track as the lookup returns it; `media` is NULL for a track without media. */
  class Track {
    var media: Media?

    constructor (m: Media?)
      ensures media == m
    {
      media := m;
    }
  }

  /** The outcome of `Media_FindDataRef` or `Media_CreateDataRef`: an error code and the
      index of the data reference (0 when none was found). */
  datatype DataRefOutcome = DataRefOutcome(err: Err, index: nat)

  // ---------------------------------------------------------------------------
  // The checks, on values

  /** What `gf_isom_update_webvtt_description` returns, from the description index, the
      outcome of the write-access check, whether the track and its media exist, the
      handler type and the types of the sample description list: every check fails with
      its own code, in source order, and `Ok` is returned only when all pass. */
  function UpdateOutcome(index: nat, access: Err, hasMedia: bool, handler: FourCC, types: seq<FourCC>): Err {
    if index == 0 then BadParam
    else if access != Ok then access
    else if !hasMedia then BadParam
    else if handler != HandlerText then BadParam
    else if index > |types| then BadParam
    else if types[index - 1] != TypeWvtt then BadParam
    else Ok
  }

  /** The update succeeds exactly when the movie may be written, the track has text media
      and the 1-based index names a 'wvtt' entry. */
  lemma UpdateSucceedsIff(index: nat, access: Err, hasMedia: bool, handler: FourCC, types: seq<FourCC>)
    ensures UpdateOutcome(index, access, hasMedia, handler, types) == Ok <==>
      access == Ok && hasMedia && handler == HandlerText && 1 <= index <= |types| && types[index - 1] == TypeWvtt
  {
  }

  /** A zero index is refused before the movie is even looked at; otherwise a refused
      write access is passed on unchanged, before the track is looked at. */
  lemma UpdateChecksIndexFirst(index: nat, access: Err, hasMedia: bool, handler: FourCC, types: seq<FourCC>)
    ensures index == 0 ==> UpdateOutcome(index, access, hasMedia, handler, types) == BadParam
    ensures index != 0 && access != Ok ==> UpdateOutcome(index, access, hasMedia, handler, types) == access
  {
  }

  /** The data reference index the new entry gets: the one found, or else the one
      created; the failing call's error when the lookup or the creation fails. */
  function DataRefIndex(find: DataRefOutcome, create: DataRefOutcome): (r: Result<nat, Err>)
    ensures r.Success? ==> find.err == Ok && r.value == (if find.index != 0 then find.index else create.index)
    ensures r.Failure? ==> r.error != Ok
    ensures find.err != Ok ==> r == Failure(find.err)
    ensures find.err == Ok && find.index == 0 && create.err != Ok ==> r == Failure(create.err)
    ensures find.err == Ok && (find.index != 0 || create.err == Ok) ==> r.Success?
  {
    if find.err != Ok then Failure(find.err)
    else if find.index != 0 then Success(find.index)
    else if create.err != Ok then Failure(create.err)
    else Success(create.index)
  }

  /** What `gf_isom_new_webvtt_description` returns: a refused write access, a missing
      track or media or a non-text handler, then a failed data reference lookup or
      creation. */
  function NewOutcome(access: Err, hasMedia: bool, handler: FourCC, find: DataRefOutcome, create: DataRefOutcome): Err {
    if access != Ok then access
    else if !hasMedia then BadParam
    else if handler != HandlerText then BadParam
    else if DataRefIndex(find, create).Failure? then DataRefIndex(find, create).error
    else Ok
  }

  /** Creating a description succeeds exactly when the movie may be written, the track has
      text media and a data reference was found or created; the creation is consulted only
      when the lookup found none. */
  lemma NewSucceedsIff(access: Err, hasMedia: bool, handler: FourCC, find: DataRefOutcome, create: DataRefOutcome)
    ensures NewOutcome(access, hasMedia, handler, find, create) == Ok <==>
      access == Ok && hasMedia && handler == HandlerText && find.err == Ok
      && (find.index == 0 ==> create.err == Ok)
    ensures find.err == Ok && find.index != 0 ==>
      NewOutcome(access, hasMedia, handler, find, create) == NewOutcome(access, hasMedia, handler, find, DataRefOutcome(BadParam, 0))
  {
  }

  /** The index a successful creation hands back names the new entry: updating it then
      passes every check, whatever the data reference outcomes were. */
  lemma NewThenUpdate(access: Err, handler: FourCC, find: DataRefOutcome, create: DataRefOutcome, types: seq<FourCC>)
    requires NewOutcome(access, true, handler, find, create) == Ok
    ensures UpdateOutcome(|types + [TypeWvtt]|, access, true, handler, types + [TypeWvtt]) == Ok
  {
    assert (types + [TypeWvtt])[|types|] == TypeWvtt;
  }

  // ---------------------------------------------------------------------------
  // The routines

  /** The types of the entries of a sample description list. */
  function EntryTypes(entries: seq<SampleEntryBox>): (ts: seq<FourCC>)
    ensures |ts| == |entries|
    ensures forall i :: 0 <= i < |entries| ==> ts[i] == entries[i].boxType
  {
    if entries == [] then [] else [entries[0].boxType] + EntryTypes(entries[1..])
  }

  /** Whether the track and its media exist. */
  predicate HasMedia(trak: Track?)
    reads trak
  {
    trak != null && trak.media != null
  }

  /** `gf_isom_update_webvtt_description`: `access` is what the write-access check
      returned, `trak` what the track lookup returned and `now` the clock. On success the
      media's modification time becomes `now` and the entry's configuration becomes a new
      'vttC' box holding a copy of `config` (no string for NULL); on failure nothing
      changes. */
  method UpdateWebVttDescription(access: Err, trak: Track?, index: nat, config: Option<CString>, now: nat)
    returns (e: Err)
    modifies if HasMedia(trak) then {trak.media} else {}
    modifies if HasMedia(trak) && 1 <= index <= |trak.media.descriptions| then {trak.media.descriptions[index - 1]} else {}
    ensures e == UpdateOutcome(index, access, old(HasMedia(trak)),
                               if old(HasMedia(trak)) then trak.media.handlerType else 0,
                               if old(HasMedia(trak)) then old(EntryTypes(trak.media.descriptions)) else [])
    ensures e == Ok ==> HasMedia(trak) && trak.media.descriptions == old(trak.media.descriptions)
    ensures e == Ok ==> trak.media.modificationTime == now
    ensures e == Ok ==> var entry := trak.media.descriptions[index - 1];
      && fresh(entry.config) && entry.config.boxType == TypeVttC && entry.config.str == config
      && entry.config.size == 0
      && entry.dataReferenceIndex == old(entry.dataReferenceIndex) && entry.others == old(entry.others)
    ensures e != Ok ==> HasMedia(trak) == old(HasMedia(trak))
    ensures e != Ok && HasMedia(trak) ==> unchanged(trak.media)
    ensures e != Ok && HasMedia(trak) ==> forall d <- trak.media.descriptions :: unchanged(d)
  {
    if index == 0 {
      return BadParam;
    }
    if access != Ok {
      return access;
    }
    if trak == null || trak.media == null {
      return BadParam;
    }
    var media := trak.media;
    if media.handlerType != HandlerText {
      return BadParam;
    }
    if index > |media.descriptions| {
      return BadParam;
    }
    var entry := media.descriptions[index - 1];
    if entry.boxType != TypeWvtt {
      return BadParam;
    }
    media.modificationTime := now;
    var vttc := new StringBox(TypeVttC, config);
    entry.config := vttc;
    e := Ok;
  }

  /** `gf_isom_new_webvtt_description`: `access` is what the write-access check returned,
      `trak` what the track lookup returned, `find` and `create` what the data reference
      lookup and creation return, and `now` the clock. On success the media's modification
      time becomes `now`, a new 'wvtt' entry with the found or created data reference index
      and no configuration is appended to the description list, and its 1-based index is
      handed back; on failure nothing changes and no index is handed back. The routine
      stores the index only through a non-NULL `outDescriptionIndex`; here it is always
      returned and a caller that passed NULL ignores it. */
  method NewWebVttDescription(access: Err, trak: Track?, find: DataRefOutcome, create: DataRefOutcome, now: nat)
    returns (e: Err, outIndex: Option<nat>)
    modifies if HasMedia(trak) then {trak.media} else {}
    ensures e == NewOutcome(access, old(HasMedia(trak)),
                            if old(HasMedia(trak)) then trak.media.handlerType else 0, find, create)
    ensures e == Ok ==>
      && HasMedia(trak) && trak.media.modificationTime == now
      && |trak.media.descriptions| == |old(trak.media.descriptions)| + 1
      && trak.media.descriptions[..|old(trak.media.descriptions)|] == old(trak.media.descriptions)
      && outIndex == Some(|trak.media.descriptions|)
    ensures e == Ok ==> var entry := trak.media.descriptions[|trak.media.descriptions| - 1];
      && fresh(entry) && entry.boxType == TypeWvtt && entry.config == null && entry.others == []
      && entry.dataReferenceIndex == DataRefIndex(find, create).value
    ensures e != Ok ==> outIndex.None? && HasMedia(trak) == old(HasMedia(trak))
    ensures e != Ok && HasMedia(trak) ==> unchanged(trak.media)
  {
    outIndex := None;
    if access != Ok {
      return access, None;
    }
    if trak == null || trak.media == null {
      return BadParam, None;
    }
    var media := trak.media;
    if media.handlerType != HandlerText {
      return BadParam, None;
    }
    if find.err != Ok {
      return find.err, None;
    }
    var dataRefIndex := find.index;
    if dataRefIndex == 0 {
      if create.err != Ok {
        return create.err, None;
      }
      dataRefIndex := create.index;
    }
    media.modificationTime := now;
    var entry := new SampleEntryBox(TypeWvtt);
    entry.dataReferenceIndex := dataRefIndex;
    media.descriptions := media.descriptions + [entry];
    outIndex := Some(|media.descriptions|);
    e := Ok;
  }
}
