# WebVTT in ISO media files: box layer, samples and cues

This project models how GPAC stores WebVTT subtitles in ISO base media (MP4) files.
It covers the WebVTT box layer, the sample encoder and decoder, cue editing, track
description editing and the text ES descriptor (`src/isomedia/webvtt.c`).
The model is written in Dafny and its properties are proved.

- **Boxes** (`box_codec.dfy`, `webvtt_boxes.dfy`). A box travels as a compact header
  (32-bit big-endian size, then the four-character type) followed by its payload.
  - String boxes ('iden', 'sttg', 'payl', 'ctim', 'vttC') carry one C string.
  - The cue box 'vtcu' holds string children.
  - The empty-cue box 'vtte' has no payload.
  - The sample entry 'wvtt' holds a 'vttC' configuration.

  Each box kind is a class with the size, write, read and add routines of the source.
  These are proved against value-level framing functions (`Frame`, `Frames`,
  `ParseBoxAt`, `ParseBoxes`), and each box kind's written bytes are proved to parse
  back.
- **Cues** (`cues.dfy`). A cue (`GF_WebVTTCue`) is a class whose strings are optional
  C strings. Splitting a cue at an instant and appending a property fragment are methods
  proved against value functions.
- **Samples** (`sample_codec.dfy`, `sample_parser.dfy`).
  - The encoder writes one 'vtcu' box per cue into a bit writer.
  - The cue parser and the sample parser read boxes back from a bit reader.

  Both run as loops proved against the value-level encoding `EncodeCues` and decoding
  `DecodeSampleAsWritten` / `DecodeSample`.
- **Track descriptions** (`track_description.dfy`). Updating a 'wvtt' entry's
  configuration and appending a new 'wvtt' entry each run a sequence of checks, with
  one error code per check.
- **ES descriptor** (`text_esd.dfy`). `gf_isom_get_webvtt_esd` builds the text
  decoder-specific configuration, and the model includes a parser that inverts it.

Bytes are `byte` values (`bytes.dfy`, with big-endian integers and C strings).
Bit streams are classes over byte sequences (`bitstream.dfy`).
Library error codes are the `Err` datatype (`errors.dfy`).

## Model

| member | source | states |
|---|---|---|
| BoxCodec.ParseBoxAt | src/isomedia/webvtt.c:556 | the framing of `gf_isom_parse_box`: a box is parsed only when a whole header is present, its 32-bit size is at least the header and at most the bytes available; it takes exactly its size in bytes |
| BoxCodec.ParseBoxes | src/isomedia/webvtt.c:138-142 | the box list of a payload or stream: boxes parsed one after another until the bytes run out or one does not parse (properties in ParseBoxesReframes, ParseFrames) |
| BoxCodec.ParseBoxAtIsFrame | src/isomedia/webvtt.c:553-556 | a box that parses from the front of some bytes fits the size field, and its header-plus-payload frame is exactly the bytes consumed |
| BoxCodec.ParseBoxesReframes | src/isomedia/webvtt.c:554-580 | every box of a parsed box list fits, and the frames of the list are a prefix of the input |
| BoxCodec.ParseFrame | src/isomedia/webvtt.c:169-179 | parsing a written box gives the box back and consumes exactly its frame, whatever follows |
| BoxCodec.ParseFrames | src/isomedia/webvtt.c:181-199 | parsing a run of written boxes gives back exactly the boxes written |
| BoxCodec.FramesAppend | src/isomedia/webvtt.c:181-199 | the frames of two box lists written one after the other are the frames of the joined list |
| BoxCodec.ParseBoxesStep | src/isomedia/webvtt.c:554-580 | a box list is the box parsed from the front followed by the list of the bytes after it |
| BoxCodec.ParseBoxesStop | src/isomedia/webvtt.c:554-557 | a box list ends at the first box that cannot be parsed |
| BoxCodec.WriteHeader | src/isomedia/webvtt.c:173 | the writer gains the 8-byte compact header: the 32-bit big-endian size, then the type |
| BoxCodec.ReadHeader | src/isomedia/webvtt.c:556 | reads a header from a window: on success the reader sits at the payload and the window parses to that type and payload; on a framing error nothing is consumed |
| BoxCodec.ParseRawBox | src/isomedia/webvtt.c:556 | reading a box of an unknown type consumes exactly the box the window parses to, or nothing when it does not parse |
| Bytes.BigEndianRoundTrip | src/isomedia/webvtt.c:655 | reading back an n-byte big-endian write of a value below 256^n gives the value |
| Bytes.FromBigEndianRoundTrip | src/isomedia/webvtt.c:655 | writing back the value read from n bytes gives the same bytes |
| Bytes.U32RoundTrip | src/isomedia/webvtt.c:173 | the 32-bit size field reads back as the size written |
| Bytes.CStr | src/isomedia/webvtt.c:107-114 | the C string of a buffer is the longest NUL-free prefix, ended by a NUL or the buffer's end |
| Bytes.CStrOfCString | src/isomedia/webvtt.c:217-226 | the C string of a NUL-free string is the string itself |
| BitStream.BitWriter.WriteUInt | src/isomedia/webvtt.c:650-655 | writing an n-byte integer appends its big-endian bytes, truncated to n bytes |
| BitStream.BitReader.ReadData | src/isomedia/webvtt.c:111 | reading n bytes returns the next n bytes and advances by n |
| WebVttBoxes.StringBox.constructor | src/isomedia/webvtt.c:52-61 | a new string box has the given type and string and no size yet |
| WebVttBoxes.StringBox.Read | src/isomedia/webvtt.c:107-114 | the whole payload becomes the box's buffer, and the reader advances by the payload size |
| WebVttBoxes.StringBox.ComputeSize | src/isomedia/webvtt.c:217-226 | the size is the header plus the string's length up to its terminator |
| WebVttBoxes.StringBox.Write | src/isomedia/webvtt.c:169-179 | writes the header, then size-minus-header bytes of the string |
| WebVttBoxes.StringBoxSizedIsFrame | src/isomedia/webvtt.c:169-179 | a string box written with its computed size is the frame of a box whose payload is the C string |
| WebVttBoxes.ParseChild | src/isomedia/webvtt.c:107-114 | a child parses as a string box exactly when its type is a string type; it consumes what the window parses to, or nothing |
| WebVttBoxes.AddCueChild | src/isomedia/webvtt.c:116-136 | `vtcu_Add` on values: a 'ctim', 'iden', 'sttg' or 'payl' child replaces that slot, any other child joins the default list |
| WebVttBoxes.RouteCueChildren | src/isomedia/webvtt.c:138-142 | `vtcu_Read` on values: every child of the list is added in order (characterised by RouteCueChildrenLastWins) |
| WebVttBoxes.RouteAppend | src/isomedia/webvtt.c:116-136 | routing one more child into a cue box is the add routine applied to the routing so far |
| WebVttBoxes.RouteCueChildrenLastWins | src/isomedia/webvtt.c:116-142 | after a child list is read, each of id, time, settings and payload is the last child of its type, and the other children are kept in order |
| WebVttBoxes.SizeChild | src/isomedia/webvtt.c:236-247 | sizing an optional child sizes it and keeps its string |
| WebVttBoxes.WriteChild | src/isomedia/webvtt.c:190-197 | writing an optional child appends its bytes, or nothing for an absent child |
| WebVttBoxes.CueBox.constructor | src/isomedia/webvtt.c:63-67 | a new cue box has no children and no size |
| WebVttBoxes.CueBox.Add | src/isomedia/webvtt.c:116-136 | the box's children become those of the add routine on values |
| WebVttBoxes.CueBox.ReadNextChild | src/isomedia/webvtt.c:138-142 | one step of reading the child list keeps the children routed from the boxes parsed so far |
| WebVttBoxes.CueBox.Read | src/isomedia/webvtt.c:138-142 | reading a cue box consumes its payload, and its children are those routed from the payload's box list |
| WebVttBoxes.CueBox.ComputeSize | src/isomedia/webvtt.c:228-250 | the size is the header plus the sizes of the id, settings and payload children; the children are sized and keep their strings |
| WebVttBoxes.CueBox.Write | src/isomedia/webvtt.c:181-199 | writes the header, then the id, settings and payload children, in that order |
| WebVttBoxes.EmptyCueBox.constructor | src/isomedia/webvtt.c:69-72 | a new empty-cue box has no children and no size |
| WebVttBoxes.EmptyCueBox.ComputeSize | src/isomedia/webvtt.c:252-255 | the size of an empty-cue box is its header |
| WebVttBoxes.EmptyCueBox.Write | src/isomedia/webvtt.c:201-206 | an empty-cue box writes only its header |
| WebVttBoxes.EmptyCueBox.ReadNextChild | src/isomedia/webvtt.c:144-147 | one step of reading keeps every parsed child in the default list |
| WebVttBoxes.EmptyCueBox.Read | src/isomedia/webvtt.c:144-147 | reading consumes the payload, and its children are the payload's box list |
| WebVttBoxes.EmptyCueBoxIsBareBox | src/isomedia/webvtt.c:201-206 | the empty-cue box written with its computed size is the frame of a box with no payload, and it parses back as one |
| WebVttBoxes.AddEntryChild | src/isomedia/webvtt.c:149-161 | `wvtt_Add` on values: a 'vttC' child replaces the configuration, any other child joins the default list |
| WebVttBoxes.RouteEntryChildren | src/isomedia/webvtt.c:163-167 | `wvtt_Read` on values: every child of the list is added in order (characterised by RouteEntryChildrenLastWins) |
| WebVttBoxes.RouteEntryAppend | src/isomedia/webvtt.c:149-161 | routing one more child into a sample entry is the entry's add routine applied to the routing so far |
| WebVttBoxes.RouteEntryChildrenLastWins | src/isomedia/webvtt.c:149-167 | after a child list is read into a sample entry, its configuration is the last 'vttC' child, and the other children are kept in order |
| WebVttBoxes.SampleEntryBox.constructor | src/isomedia/webvtt.c:74-77 | a new sample entry has the given type, no configuration, data reference index 0 and no size |
| WebVttBoxes.SampleEntryBox.Add | src/isomedia/webvtt.c:149-161 | the entry's children become those of the entry's add routine on values |
| WebVttBoxes.SampleEntryBox.ReadNextChild | src/isomedia/webvtt.c:163-167 | one step of reading the child list keeps the children routed from the boxes parsed so far |
| WebVttBoxes.SampleEntryBox.Read | src/isomedia/webvtt.c:163-167 | reading consumes the payload, and the entry's children are those routed from the payload's box list |
| WebVttBoxes.SampleEntryBox.ComputeSize | src/isomedia/webvtt.c:257-270 | the size is the header plus the configuration child's size, and the configuration keeps its string |
| WebVttBoxes.SampleEntryBox.Write | src/isomedia/webvtt.c:208-215 | writes the header, then the configuration child |
| WebVttBoxes.EntryRoundTrip | src/isomedia/webvtt.c:208-215 | a sample entry with a configuration, sized and written, is the frame of a box of its type whose payload is the 'vttC' frame of the C string; it parses back as that box, and reading its children gives back exactly that configuration and no other child |
| WebVttBoxes.EntryWithoutConfigRoundTrip | src/isomedia/webvtt.c:257-270 | a sample entry without a configuration is written as a bare header, which parses back as an empty box of its type whose children hold no configuration |
| Cues.Cue.constructor | src/isomedia/webvtt.c:369-374 | a new cue is the zero-filled cue |
| Cues.SplitCue | src/isomedia/webvtt.c:457-477 | the split as written, on values (characterised by SplitCueSpans and SplitTwiceLosesOrigin) |
| Cues.SplitCueKeepingOrigin | src/isomedia/webvtt.c:457-477 | the split as evidently intended, on values: the origin is recorded only on a cue not yet split (characterised by SplitRepeatedlyKeepsOrigin) |
| Cues.SplitCueSpans | src/isomedia/webvtt.c:457-477 | splitting gives two non-empty cues exactly when the instant lies strictly inside the cue; the halves meet at the instant and cover the cue, both are marked split with the cue's current extent as their origin, and the new cue copies id, settings and text but not the time string |
| Cues.Cue.SplitAt | src/isomedia/webvtt.c:457-477 | the cue and the fresh new cue are the two halves of the value-level split |
| Cues.SplitTwiceLosesOrigin | src/isomedia/webvtt.c:461-463 | splitting [0 ms, 10 ms) at 4 ms and then the new cue at 7 ms gives pieces whose recorded origin is [4 ms, 10 ms) rather than the cue's original extent |
| Cues.SplitAtKeepingOrigin | src/isomedia/webvtt.c:457-477 | the corrected split: the cue and the fresh new cue are the halves of the split that records the origin only on a cue not yet split |
| Cues.SplitRepeatedlyKeepsOrigin | src/isomedia/webvtt.c:457-477 | with the corrected split, every piece of any number of splits keeps the cue's original extent, and the pieces tile the cue; with instants strictly inside the cue and increasing, every piece is non-empty |
| Cues.AppendFragment | src/isomedia/webvtt.c:500-507 | the grown string's length is the old length plus the fragment's |
| Cues.AddPropertyValue | src/isomedia/webvtt.c:484-507 | `gf_isom_webvtt_cue_add_property` on values for a non-null cue (characterised by AddPropertyValueEffect) |
| Cues.AddFragments | src/isomedia/webvtt.c:479-509 | a run of calls on the same property, in order (characterised by AddFragmentsAccumulates) |
| Cues.AddPropertyValueEffect | src/isomedia/webvtt.c:479-509 | a zero length changes nothing; otherwise the selected string becomes the old string followed by the fragment (or the fragment alone) and every other field is unchanged |
| Cues.AddFragmentsAccumulates | src/isomedia/webvtt.c:479-509 | a run of fragments leaves the selected string as its prior contents followed by every fragment passed with a non-zero length, in order; it is present exactly when it was present before or some such fragment came; other properties are unchanged |
| Cues.AddProperty | src/isomedia/webvtt.c:479-509 | a null cue gives BadParam; otherwise Ok, and the cue becomes the value-level effect of adding the fragment |
| Cues.WebVttSample.constructor | src/isomedia/webvtt.c:511-518 | a new sample has no cues |
| SampleCodec.CueChildFrames | src/isomedia/webvtt.c:228-250 | the children of a cue's box fit, and their frames take the box's size less its header |
| SampleCodec.CueBoxOf | src/isomedia/webvtt.c:345-367 | a cue's box fits the 32-bit size field, and its size is the size the size routine computes |
| SampleCodec.CueBoxes | src/isomedia/webvtt.c:386-391 | a sample has one cue box per cue, in list order |
| SampleCodec.EncodeCues | src/isomedia/webvtt.c:376-406 | the bytes of an encoded sample: the frames of the cues' boxes, in order, and nothing for no cues (characterised by EncodeCuesSnoc, EncodedSampleStructure, DecodeSampleRoundTrip) |
| SampleCodec.EncodeCuesSnoc | src/isomedia/webvtt.c:388-391 | encoding one more cue appends that cue's box frame |
| SampleCodec.EncodedSampleStructure | src/isomedia/webvtt.c:376-406 | an encoded sample reads back as one 'vtcu' box per cue, each of whose payloads parses to the cue's id, settings and text children |
| SampleCodec.SizedChildIsFrame | src/isomedia/webvtt.c:352-360 | a sized child built for an optional string is written as that string's child box frame, or nothing when absent |
| SampleCodec.CueBoxBytes | src/isomedia/webvtt.c:181-199 | the header followed by the three child frames is the frame of the cue's box |
| SampleCodec.NewCueBox | src/isomedia/webvtt.c:351-360 | the cue box built for a cue has a fresh 'iden', 'sttg' and 'payl' child holding a copy of each present string, and none for an absent one |
| SampleCodec.SizeCueBox | src/isomedia/webvtt.c:362 | sizing the built box gives the cue box's size and sizes each child |
| SampleCodec.SizedCueBoxBytes | src/isomedia/webvtt.c:362-363 | what the write routine emits for the sized box is the frame of the cue's box |
| SampleCodec.WriteSizedCueBox | src/isomedia/webvtt.c:363 | writing the sized box appends the frame of the cue's box |
| SampleCodec.WriteCue | src/isomedia/webvtt.c:345-367 | a null cue writes nothing; otherwise the frame of the cue's box is appended |
| SampleCodec.AppendCueBox | src/isomedia/webvtt.c:388-391 | one turn of the encoder loop extends the encoding of the cues so far by the next cue |
| SampleCodec.WebVttToSample | src/isomedia/webvtt.c:376-406 | a null sample gives no ISO sample; otherwise a random access sample whose bytes are the encoding of the cues, in order |
| SampleCodec.DecodedCue | src/isomedia/webvtt.c:547-553 | a decoded cue is zero-filled except for its id, settings, text and time strings |
| SampleCodec.WithDecodedField | src/isomedia/webvtt.c:558-577 | the switch of the cue parser on one box: an 'iden', 'sttg', 'payl' or 'ctim' box sets that string to a copy of its C string, other boxes change nothing |
| SampleCodec.DecodedCueLastWins | src/isomedia/webvtt.c:554-580 | each string of a decoded cue is the C string of the last box of its type, or absent |
| SampleCodec.DecodedCueSnoc | src/isomedia/webvtt.c:556-578 | the decoded cue of a box list is built box by box by the type switch |
| SampleCodec.AsWrittenCues | src/isomedia/webvtt.c:593-610 | the sample parser's loop as written, on the box list: a cue box yields the cue decoded from all the boxes after it, and ends the list; other boxes yield nothing |
| SampleCodec.DecodeSampleAsWritten | src/isomedia/webvtt.c:584-612 | the sample parser as written, on the bytes of a sample (characterised by AsWrittenAtMostOneCue, DecodeAsWrittenCollapses) |
| SampleCodec.AsWrittenAtMostOneCue | src/isomedia/webvtt.c:593-610 | the sample decoder as written yields at most one cue |
| SampleCodec.DecodeAsWrittenCollapses | src/isomedia/webvtt.c:601-604 | decoding, as written, any non-empty encoded cue list gives a single zero-filled cue |
| SampleCodec.DecodeAsWrittenLosesId | src/isomedia/webvtt.c:601-604 | a single cue with id "a", encoded and decoded as written, comes back without its id |
| SampleCodec.DecodedCues | src/isomedia/webvtt.c:593-610 | the sample parser's loop as evidently intended, on the box list: each cue box yields the cue decoded from its own payload; other boxes yield nothing |
| SampleCodec.DecodeSample | src/isomedia/webvtt.c:584-612 | the sample parser as evidently intended, on the bytes of a sample (characterised by DecodeSampleRoundTrip) |
| SampleCodec.DecodeCueBox | src/isomedia/webvtt.c:547-582 | a cue's box decodes to the cue's id, settings and text on a zero-filled cue |
| SampleCodec.LastOfTypeConcat | src/isomedia/webvtt.c:556-578 | the last box of a type in a joined list is the last one in the second part if there is one, else the first part's |
| SampleCodec.DecodeSampleRoundTrip | src/isomedia/webvtt.c:584-612 | the corrected decoder gives back, cue for cue, the id, settings and text of every encoded cue |
| SampleCodec.DecodedCuesOfCueBoxes | src/isomedia/webvtt.c:584-612 | the corrected decoding of a list of cue boxes is what those cues carry |
| SampleParser.StoreField | src/isomedia/webvtt.c:558-577 | the cue takes a copy of the string of an 'iden', 'sttg', 'payl' or 'ctim' box and ignores any other box |
| SampleParser.ReadCueField | src/isomedia/webvtt.c:554-580 | one turn of the cue parser's loop keeps the cue equal to the decoding of the boxes parsed so far |
| SampleParser.ParseWebVttCue | src/isomedia/webvtt.c:547-582 | the cue parsed from a stream is the decoding of the stream's box list from the current position, and the stream is left where no box parses |
| SampleParser.AppendCueFromStream | src/isomedia/webvtt.c:601-604 | the cue case of the sample parser, as written: the cue decoded from the rest of the stream is appended and the stream is exhausted |
| SampleParser.ReadSampleBox | src/isomedia/webvtt.c:594-609 | one turn of the sample parser as written keeps the cues found plus the as-written decoding of the rest equal to the goal |
| SampleParser.AsWrittenStep | src/isomedia/webvtt.c:597-608 | one box of the as-written decoding: a cue box yields the cue decoded from all the boxes after it; other boxes yield nothing |
| SampleParser.ParseWebVttSample | src/isomedia/webvtt.c:584-612 | the parsed sample's cues are the as-written decoding of the stream from its position |
| SampleParser.DecodedCuesStep | src/isomedia/webvtt.c:597-608 | one box of the corrected decoding: a cue box yields the cue decoded from its own payload |
| SampleParser.AppendCueFromBox | src/isomedia/webvtt.c:601-604 | the corrected cue case: the cue decoded from the cue box's own payload is appended |
| SampleParser.ReadSampleBoxIntended | src/isomedia/webvtt.c:594-609 | one turn of the corrected sample parser keeps the cues found plus the corrected decoding of the rest equal to the goal |
| SampleParser.ParseWebVttSampleIntended | src/isomedia/webvtt.c:584-612 | the corrected parser's cues are the corrected decoding of the stream, one cue per cue box |
| SampleParser.ParseWebVttSampleFromData | src/isomedia/webvtt.c:614-627 | no data or a zero length gives an empty sample; otherwise the as-written decoding of the first dataLength bytes |
| TrackDescription.Media.constructor | src/isomedia/webvtt.c:284-285 | a media has the given handler, modification time and descriptions |
| TrackDescription.Track.constructor | src/isomedia/webvtt.c:284-285 | a track has the given media |
| TrackDescription.UpdateOutcome | src/isomedia/webvtt.c:280-301 | the checks of the update in source order, each failing with its own code (characterised by UpdateSucceedsIff, UpdateChecksIndexFirst) |
| TrackDescription.UpdateSucceedsIff | src/isomedia/webvtt.c:274-307 | the update succeeds exactly when the movie may be written, the track has text media and the 1-based index names a 'wvtt' entry |
| TrackDescription.UpdateChecksIndexFirst | src/isomedia/webvtt.c:280-282 | a zero index is refused before anything else; otherwise a refused write access is passed on unchanged |
| TrackDescription.DataRefIndex | src/isomedia/webvtt.c:330-335 | a failed lookup fails with the lookup's error; when the lookup found none, a failed creation fails with the creation's error; otherwise it succeeds with the index found, or else the index created |
| TrackDescription.NewOutcome | src/isomedia/webvtt.c:316-335 | the checks of the creation in source order, each failing with its own code (characterised by NewSucceedsIff, NewThenUpdate) |
| TrackDescription.NewSucceedsIff | src/isomedia/webvtt.c:309-343 | creating a description succeeds exactly when the movie may be written, the track has text media and a data reference was found or created; creation is consulted only when the lookup found none |
| TrackDescription.NewThenUpdate | src/isomedia/webvtt.c:341 | the index handed back by a successful creation names a 'wvtt' entry that the update accepts |
| TrackDescription.EntryTypes | src/isomedia/webvtt.c:294-301 | the types of a description list, entry by entry |
| TrackDescription.UpdateWebVttDescription | src/isomedia/webvtt.c:274-307 | returns the first failing check's error, in source order; on success the modification time is the clock and the entry's configuration is a fresh 'vttC' box holding the given string; on failure nothing changes |
| TrackDescription.NewWebVttDescription | src/isomedia/webvtt.c:309-343 | returns the first failing check's error; on success the modification time is the clock, a fresh 'wvtt' entry with the found or created data reference index and no configuration is appended, and its 1-based index is handed back; on failure nothing changes and no index is handed back |
| TextEsd.FlagsByte | src/isomedia/webvtt.c:656-670 | the flags byte is 0x50, or 0x58 exactly when a visual track exists |
| TextEsd.EncodeConfig | src/isomedia/webvtt.c:650-691 | the configuration takes 13 bytes, or 21 with the visual translation |
| TextEsd.ParseConfig | src/isomedia/webvtt.c:650-691 | reads the configuration layout the routine writes; whatever it accepts is in range (inverse of EncodeConfig by ParseEncodeConfig and EncodeParseConfig) |
| TextEsd.EncodeConfigLayout | src/isomedia/webvtt.c:650-691 | the configuration is three 0x10 bytes, a 24-bit timescale, the flags byte, the layer, 16-bit width and height, the entry count and, with a visual track, two zero words and the 16-bit x and y translation |
| TextEsd.ParseEncodeConfig | src/isomedia/webvtt.c:650-691 | parsing a written configuration gives it back |
| TextEsd.EncodeParseConfig | src/isomedia/webvtt.c:650-691 | writing a parsed configuration gives back the bytes it was parsed from |
| TextEsd.HighHalf | src/isomedia/webvtt.c:672-673 | the high half of a 32-bit field fits 16 bits and is the value shifted right by 16 |
| TextEsd.WrittenConfig | src/isomedia/webvtt.c:655-690 | the configuration written for a track is in range and has a translation exactly when a visual track exists |
| TextEsd.HasVisualTrack | src/isomedia/webvtt.c:661-667 | true exactly when some track of the movie has a visual handler |
| TextEsd.GetWebVttEsd | src/isomedia/webvtt.c:629-697 | no descriptions gives InvalidMedia and no descriptor; otherwise Ok and a text stream descriptor with object type 0x08 whose decoder-specific info is the written configuration |
| TextEsd.EsdConfigReadsBack | src/isomedia/webvtt.c:650-691 | the descriptor's configuration parses back to the timescale modulo 2^24, the count modulo 256, and a translation exactly when a visual track exists |

## Left out

- `include/gpac/html5_mse.h` holds only declarations and is not part of this model.
- The dump routines, the destructors (`*_del`, `gf_isom_delete_webvtt_sample`) and the `gf_isom_webvtt_reset` stub are left out. Dafny has no manual memory.
- Other repository code is not part of this model. Its outcomes are parameters instead: `CanAccessMovie`, the track lookup, `Media_FindDataRef`, `Media_CreateDataRef` and the clock. The unused `desc` argument of `gf_isom_new_webvtt_description` is dropped.
- Box headers with size 0 or size 1 (64-bit `largesize`) are not modelled.
- Extended 'uuid' types are not modelled.
- A malformed header, or a box larger than what remains, ends a box list in the model. The source's loops ignore a parse error and test `gf_bs_available` again. How far the stream moves then depends on `gf_isom_parse_box`, which is not part of this model.
- Only the framing of `gf_isom_parse_box` is modelled: string boxes are read by their read routine and every other type is kept as raw bytes. The error behaviour of `gf_isom_read_box_list` beyond framing is not modelled.
- SampleCodec.WebVttToSample: requires every cue box to fit the 32-bit size field, because only the compact header is modelled; a larger box would get a 64-bit header in the library. The source's path for a failed size or write (no sample) is not modelled, because the model's writer cannot fail.
- SampleCodec.WriteCue: requires the cue box to fit the 32-bit size field, for the same reason.
- TrackDescription.NewWebVttDescription: hands the new index back on every success; the source stores it only through a non-NULL `outDescriptionIndex`.
- Memory exhaustion (a failed `gf_isom_sample_new`, `GF_SAFEALLOC` or `gf_realloc`) is not modelled.
- Cues.AddPropertyValue: `text_len` only gates the call and sizes the `realloc`. The fragment is copied up to its terminator. Buffers too short for `text_len` are not modelled.
- The definition of `GF_WebVTTTimestamp` is not part of this model. A timestamp is hours, minutes, seconds and milliseconds, compared by their total in milliseconds.
- `wvtt_Write` and `wvtt_Read` write and read no sample-entry fields (reserved bytes and data reference index). The model follows the code. The data reference index therefore lives only in memory.
- The track header's `handler` pointer is taken as present: the source dereferences it without a check.
- TextEsd.GetWebVttEsd:
  - Only the stream type, the object type and the decoder-specific info of the ES descriptor are modelled. The SL configuration and ES ID are not.
  - The 1-, 2- and 1-bit writes and the 1- and 3-bit writes are combined into one flags byte. This matches the bytes the source emits.
  - The loop over sample descriptions writes nothing (its body is commented out) and is not modelled.

## Findings

| source | as written | input that shows it | evidently intended | confidence | as-written member | corrected member |
|---|---|---|---|---|---|---|
| src/isomedia/webvtt.c:601-604 | `gf_isom_parse_box` has already consumed the whole 'vtcu' box. The cue is then parsed from the remaining stream, not from the box's children. So the first cue box swallows all later boxes and yields a cue with none of its own strings. | A sample encoded from one cue with id "a" decodes to one cue with no id. Any non-empty cue list decodes to a single zero-filled cue. | Each 'vtcu' box yields one cue, decoded from that box's own children, so decoding gives back each cue's id, settings and text. | not executed | SampleCodec.DecodeAsWrittenCollapses, SampleCodec.DecodeAsWrittenLosesId, SampleParser.ParseWebVttSample | SampleCodec.DecodeSampleRoundTrip, SampleParser.ParseWebVttSampleIntended |
| src/isomedia/webvtt.c:461-463 | `orig_start` and `orig_end` are overwritten with the current extent on every split, including on a cue that was already split. | [0 ms, 10 ms) is split at 4 ms, then the new cue is split at 7 ms. Both pieces record [4 ms, 10 ms) as their origin. | The original extent is recorded only when the cue is not yet split, so every piece keeps the cue's first extent. | not executed | Cues.SplitTwiceLosesOrigin, Cues.Cue.SplitAt | Cues.SplitRepeatedlyKeepsOrigin, Cues.SplitAtKeepingOrigin |
