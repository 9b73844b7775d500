# Stream descriptions of the LAV Splitter demuxer

This project models the part of `LAVFUtils.cpp` that turns a stream's codec
metadata into the one-line description the splitter shows for each stream,
for example `A: English (AC-3, 48000 Hz, 5.1, 448 kb/s) [default]`. The
model covers:

- `up`, the ASCII upper-casing helper;
- `get_bit_rate`, which picks the stored bitrate or, for any audio codec
  whose bits-per-sample is non-zero, computes one from the sample rate,
  channel count and bits per sample;
- `show_sample_fmt`, which says whether a codec's sample format is shown;
- `get_stream_language`, which picks the language tag or the legacy language
  field and drops "und";
- the `nice_codec_names` table and `get_codec_name`, with its six-step
  priority chain;
- the string building of `lavf_describe_stream`, up to the narrow string it
  produces.

The model is written in five modules:

- `Wrappers` holds `Option`.
- `LavfTypes` holds the codec context, the stream and the library routines
  the code calls. Each routine is an uninterpreted total function held in a
  `MediaLibrary` value, so every proof holds for any behaviour of the
  library.
- `Numerals` holds the decimal and `%04X` renderings of integers, each with
  a reader that undoes it.
- `LavfUtils` holds the helpers, and `StreamDescription` holds the
  description.

The loops and appends of the source are methods: `Up`, `FindNiceName`,
`GetCodecName` and `DescribeStream` with its helpers. Each is proved equal
to a function, and the lemmas state what those functions promise.

The description is modelled as a list of segments: the type tag, the label,
the codec name, the pixel format and so on. `Render` concatenates the
segments' texts.

- `Slot` says, kind by kind, when each segment is written and what it
  holds.
- `DescriptionSlots` proves that the description has exactly those
  segments.
- `DescriptionOrdered` proves that they come in one fixed order, each kind
  at most once.
- `DescriptionIsSlots` proves that these two facts determine the
  description completely.
- `DescriptionBegins` and `DescriptionEnds` state how the string itself
  begins and ends.

## Model

| member | source | states |
|---|---|---|
| LavfUtils.Upper | demuxer/Demuxers/LAVFUtils.cpp:96-103 | the result has the input's length; each 'a'..'z' becomes the matching 'A'..'Z' and every other character is unchanged |
| LavfUtils.Up | demuxer/Demuxers/LAVFUtils.cpp:96-103 | the index loop filling a buffer of the same length produces Upper of its input |
| LavfUtils.UpperHasNoLower | demuxer/Demuxers/LAVFUtils.cpp:100 | no character 'a'..'z' is left after upper-casing |
| LavfUtils.UpperIdempotent | demuxer/Demuxers/LAVFUtils.cpp:96-103 | upper-casing twice equals upper-casing once |
| LavfTypes.WrapInt32 | demuxer/Demuxers/LAVFUtils.cpp:50 | storing an int computation in a C int keeps it modulo 2^32 and keeps it exactly when it fits |
| LavfUtils.GetBitRate | demuxer/Demuxers/LAVFUtils.cpp:36-57 | video, data, subtitle and attachment streams give the stored bit_rate; audio with bits-per-sample 0 gives bit_rate; other audio gives sample_rate * channels * bits_per_sample, modulo 2^32 and exactly when it fits in an int; any other media type gives 0 |
| LavfUtils.ShowSampleFmt | demuxer/Demuxers/LAVFUtils.cpp:150-166 | holds exactly when the id is in the PCM block 0x10000..0x11FFF or is one of MLP, TrueHD, FLAC, WMA Lossless, WavPack, MPEG-4 ALS and ALAC |
| LavfUtils.GetStreamLanguage | demuxer/Demuxers/LAVFUtils.cpp:59-71 | the language tag wins over the legacy field, which is used only when non-empty; a language starting with "und" gives no language; with neither source there is no language; a returned language never starts with "und" |
| LavfUtils.GetStreamLanguageAsWritten | demuxer/Demuxers/LAVFUtils.cpp:59-71 | the code as written: undefined when neither language source gives a string, otherwise the picked language unless it starts with "und" |
| LavfUtils.NullLanguageAsWritten | demuxer/Demuxers/LAVFUtils.cpp:61-68 | with no language tag and an empty legacy field, the code as written passes NULL to strncmp (undefined), while the model gives no language |
| LavfUtils.LanguageAgreesWhereDefined | demuxer/Demuxers/LAVFUtils.cpp:59-71 | the code as written is undefined exactly when both language sources are missing, and agrees with GetStreamLanguage everywhere else |
| LavfUtils.NiceNameOfEntry | demuxer/Demuxers/LAVFUtils.cpp:73-93 | each of the 13 table entries is the first with its id, so looking up that id gives that entry's name |
| LavfUtils.FirstMatchAt | demuxer/Demuxers/LAVFUtils.cpp:115-122 | the search stops at the first entry whose id matches and yields its name |
| LavfUtils.NoMatchFrom | demuxer/Demuxers/LAVFUtils.cpp:115-122 | the search yields no name when no remaining entry matches |
| LavfUtils.FirstMatchMeaning | demuxer/Demuxers/LAVFUtils.cpp:115-122 | the search yields no name exactly when no entry matches, and otherwise the name of the first matching entry |
| LavfUtils.FindNiceName | demuxer/Demuxers/LAVFUtils.cpp:115-122 | the search loop with its break, bounded by the number of entries, returns the table's first matching name or none |
| LavfUtils.NiceNameSearchAsWritten | demuxer/Demuxers/LAVFUtils.cpp:116-121 | the search as written, bounded by the byte count: undefined once it reads an index past the 13 entries, otherwise the first matching name |
| LavfUtils.AsWrittenSearchOverruns | demuxer/Demuxers/LAVFUtils.cpp:116-121 | with the bound sizeof(nice_codec_names), larger than the entry count, an id missing from the table makes the loop read past the table's end |
| LavfUtils.H264OverrunsAsWritten | demuxer/Demuxers/LAVFUtils.cpp:116-124 | H.264 has no nice name, so describing any H.264 stream overruns the table as written |
| LavfUtils.LevelText | demuxer/Demuxers/LAVFUtils.cpp:126-129 | "%.1f" of level / 10.0: an optional '-', the units, a point and the tenths digit |
| LavfUtils.TagHex | demuxer/Demuxers/LAVFUtils.cpp:144 | "0x%04X" of the codec tag |
| LavfUtils.TenthsTextRoundTrip | demuxer/Demuxers/LAVFUtils.cpp:128 | a count of tenths is written as its units, a point and one digit, every character but the point is a decimal digit, the units are the single digit 0..9 below ten and otherwise have no leading zero, and the text reads back as the same count |
| LavfUtils.LevelTextRoundTrip | demuxer/Demuxers/LAVFUtils.cpp:126-130 | the level text has exactly one digit after the point, is made of decimal digits apart from an optional leading '-' and the point, has a single units digit when the level is between -10 and 10 exclusive and otherwise no leading zero in its units, and reads back as the level in tenths, sign included |
| LavfUtils.CodecNameWith | demuxer/Demuxers/LAVFUtils.cpp:124-146 | the priority chain of get_codec_name for a given nice name |
| LavfUtils.CodecName | demuxer/Demuxers/LAVFUtils.cpp:105-148 | the string get_codec_name returns: the priority chain with the table's nice name for the effective codec id |
| LavfUtils.CodecNameFirstApplicable | demuxer/Demuxers/LAVFUtils.cpp:124-146 | the codec name is the name given by the first applicable rule among: H.264 with a profile, DTS with a profile, the nice name, the upper-cased decoder name, the upper-cased non-empty context codec name, and the tag with its hex value |
| LavfUtils.GetCodecName | demuxer/Demuxers/LAVFUtils.cpp:105-148 | the codec id (the one behind opaque for subtitles), the table search and the appends produce CodecName |
| LavfUtils.FormatCodecName | demuxer/Demuxers/LAVFUtils.cpp:124-147 | the if-chain of appends produces the priority chain's name for the given nice name |
| LavfUtils.AppendH264Name | demuxer/Demuxers/LAVFUtils.cpp:125-130 | appends "H.264 " and the profile, then " L" and the level text only when the level is non-zero, not unknown and below 1000 |
| LavfUtils.AppendTagName | demuxer/Demuxers/LAVFUtils.cpp:139-146 | appends the tag string, " / ", then "0x" and the tag's hex value |
| Numerals.Digits | demuxer/Demuxers/LAVFUtils.cpp:144 | a non-empty string of digit characters, with no leading zero when n > 0 |
| Numerals.DigitsBelowBase | demuxer/Demuxers/LAVFUtils.cpp:144 | every digit written in a base has a value below that base, so decimal text has only '0'..'9' and hexadecimal text only '0'..'9' and 'A'..'F' |
| Numerals.DigitsRoundTrip | demuxer/Demuxers/LAVFUtils.cpp:144 | the digits of n in a base from 2 to 16 read back as n |
| Numerals.Decimal | demuxer/Demuxers/LAVFUtils.cpp:213 | the decimal text of an int is non-empty, starts with '-' exactly for negative values, is otherwise made of '0'..'9' with at least one digit, has no leading zero, and is exactly "0" for 0 |
| Numerals.DecimalRoundTrip | demuxer/Demuxers/LAVFUtils.cpp:213 | the decimal text of every int reads back as that int |
| Numerals.NegativeRoundTrip | demuxer/Demuxers/LAVFUtils.cpp:293 | a negative int reads back from its minus sign and digits |
| Numerals.NonNegativeRoundTrip | demuxer/Demuxers/LAVFUtils.cpp:237 | a non-negative int reads back from its digits |
| Numerals.ParseSigned | demuxer/Demuxers/LAVFUtils.cpp:293 | a minus sign before digits negates their value |
| Numerals.Zeros | demuxer/Demuxers/LAVFUtils.cpp:144 | the zero padding has the requested length and only '0' characters |
| Numerals.ZerosValue | demuxer/Demuxers/LAVFUtils.cpp:144 | zero padding alone reads as 0 |
| Numerals.LeadingZeros | demuxer/Demuxers/LAVFUtils.cpp:144 | zero padding in front of digits does not change their value |
| Numerals.Hex4 | demuxer/Demuxers/LAVFUtils.cpp:144 | "%04X" text is hexadecimal digits, exactly four when the value needs fewer and otherwise as many as the value needs |
| Numerals.Hex4RoundTrip | demuxer/Demuxers/LAVFUtils.cpp:144 | the "%04X" text reads back as the tag, and is unpadded once the tag needs four digits or more |
| StreamDescription.DescribeStream | demuxer/Demuxers/LAVFUtils.cpp:168-297 | the statements up to buf.str() produce Describe, the rendering of the stream's segments |
| StreamDescription.Prepare | demuxer/Demuxers/LAVFUtils.cpp:173-192 | the values computed before the switch: codec name, language, sLanguage, title, bitrate, and the tested disposition bits and show_sample_fmt |
| StreamDescription.Segments | demuxer/Demuxers/LAVFUtils.cpp:195-295 | the segments a stream's description is made of, appended under the guards the source tests |
| StreamDescription.SegmentsFor | demuxer/Demuxers/LAVFUtils.cpp:195-295 | the switch on the media type, given the values computed before it |
| StreamDescription.Slot | demuxer/Demuxers/LAVFUtils.cpp:195-295 | kind by kind, when the description has a segment of that kind and what it holds |
| StreamDescription.PrepareStream | demuxer/Demuxers/LAVFUtils.cpp:173-192 | the codec name, the language, sLanguage (the probed display name, else the language itself), the title and the bitrate computed before the switch, with the disposition bits tested |
| StreamDescription.DescribeFor | demuxer/Demuxers/LAVFUtils.cpp:195-295 | the switch on the media type renders the segments of that type, and "Unknown: Stream #" with the index for every other type |
| StreamDescription.AppendOpening | demuxer/Demuxers/LAVFUtils.cpp:198-206 | after the type tag, appends "title [lang] (", or "title (" or "sLanguage (", or nothing, then the codec name |
| StreamDescription.DescribeVideo | demuxer/Demuxers/LAVFUtils.cpp:196-223 | the video case renders its segments |
| StreamDescription.DescribeAudio | demuxer/Demuxers/LAVFUtils.cpp:224-263 | the audio case renders its segments |
| StreamDescription.DescribeSubtitle | demuxer/Demuxers/LAVFUtils.cpp:264-291 | the subtitle case renders its segments, with the flags " [forced]", " [hearing impaired]" or " [forced, hearing impaired]" |
| StreamDescription.AppendVideoFormat | demuxer/Demuxers/LAVFUtils.cpp:207-214 | appends the pixel format unless it is PIX_FMT_NONE, then "WxH" when the width is non-zero |
| StreamDescription.AppendAudioFormat | demuxer/Demuxers/LAVFUtils.cpp:235-251 | appends the sample rate when non-zero, the channel layout always, then the sample format |
| StreamDescription.AppendBitrate | demuxer/Demuxers/LAVFUtils.cpp:215-218 | appends bitrate/1000 and " kb/s" exactly when the bitrate is positive |
| StreamDescription.AppendSampleFormat | demuxer/Demuxers/LAVFUtils.cpp:243-251 | appends ", fp" for float and double samples or ", s" otherwise, then the bits, exactly when show_sample_fmt holds and the bits are non-zero |
| StreamDescription.EmitKind | demuxer/Demuxers/LAVFUtils.cpp:208-210 | a conditional append adds a segment of its kind exactly when its condition holds, and changes no other kind |
| StreamDescription.EmitOrdered | demuxer/Demuxers/LAVFUtils.cpp:208-210 | a conditional append of a later-ranked segment keeps the list ordered |
| StreamDescription.EmitExtends | demuxer/Demuxers/LAVFUtils.cpp:208-210 | a conditional append only extends what was written |
| StreamDescription.OpeningKind | demuxer/Demuxers/LAVFUtils.cpp:197-206 | the opening holds the tag, the label exactly when there is a title or a language, and the codec name |
| StreamDescription.VideoFormatKind | demuxer/Demuxers/LAVFUtils.cpp:207-214 | the pixel format and dimension segments appear exactly under their guards |
| StreamDescription.TailKind | demuxer/Demuxers/LAVFUtils.cpp:215-222 | the bitrate segment appears exactly when the bitrate is positive, and the closing parenthesis exactly when there is a label |
| StreamDescription.VideoSlots | demuxer/Demuxers/LAVFUtils.cpp:196-223 | a video description has exactly the segments Slot gives |
| StreamDescription.AudioFormatKind | demuxer/Demuxers/LAVFUtils.cpp:235-251 | sample rate, channel layout and sample format segments appear exactly under their guards |
| StreamDescription.AudioTailKind | demuxer/Demuxers/LAVFUtils.cpp:252-262 | bitrate, closing parenthesis and default flag appear exactly under their guards |
| StreamDescription.AudioSlots | demuxer/Demuxers/LAVFUtils.cpp:224-263 | an audio description has exactly the segments Slot gives |
| StreamDescription.SubtitleTailKind | demuxer/Demuxers/LAVFUtils.cpp:275-290 | the closing parenthesis and the flags appear exactly under their guards |
| StreamDescription.SubtitleSlots | demuxer/Demuxers/LAVFUtils.cpp:264-291 | a subtitle description has exactly the segments Slot gives |
| StreamDescription.SlotsFor | demuxer/Demuxers/LAVFUtils.cpp:195-295 | for every media type and values computed before the switch, the description has exactly the segments Slot gives |
| StreamDescription.DescriptionSlots | demuxer/Demuxers/LAVFUtils.cpp:168-295 | every kind of segment is in a stream's description exactly when Slot says, with the contents Slot gives |
| StreamDescription.OpeningOrdered | demuxer/Demuxers/LAVFUtils.cpp:197-206 | the opening is ordered and ends with the codec name |
| StreamDescription.VideoFormatOrdered | demuxer/Demuxers/LAVFUtils.cpp:207-214 | the pixel format and dimensions keep the list ordered |
| StreamDescription.TailOrdered | demuxer/Demuxers/LAVFUtils.cpp:215-222 | the bitrate and closing parenthesis keep the list ordered |
| StreamDescription.VideoOrdered | demuxer/Demuxers/LAVFUtils.cpp:196-223 | the video segments are ordered |
| StreamDescription.AudioFormatOrdered | demuxer/Demuxers/LAVFUtils.cpp:235-251 | the sample rate, channel layout and sample format keep the list ordered |
| StreamDescription.AudioOrdered | demuxer/Demuxers/LAVFUtils.cpp:224-263 | the audio segments are ordered |
| StreamDescription.SubtitleOrdered | demuxer/Demuxers/LAVFUtils.cpp:264-291 | the subtitle segments are ordered |
| StreamDescription.OrderedFor | demuxer/Demuxers/LAVFUtils.cpp:195-295 | every media type's segments are ordered |
| StreamDescription.DescriptionOrdered | demuxer/Demuxers/LAVFUtils.cpp:168-295 | a description's segments come in one fixed order (tag, label, codec, pixel format, dimensions, rate, channels, sample format, bitrate, parenthesis, default, flags), each kind at most once |
| StreamDescription.FoundNotAfterLast | demuxer/Demuxers/LAVFUtils.cpp:195-295 | in an ordered list, a segment found for a kind has that kind and ranks no later than the last segment |
| StreamDescription.NoneAfterLast | demuxer/Demuxers/LAVFUtils.cpp:195-295 | an ordered list has no segment of a kind ranked after its last one |
| StreamDescription.SlotsDetermine | demuxer/Demuxers/LAVFUtils.cpp:195-295 | two ordered lists with the same segment of every kind are equal |
| StreamDescription.DescriptionIsSlots | demuxer/Demuxers/LAVFUtils.cpp:168-295 | the description is the only ordered list with the segments Slot gives |
| StreamDescription.ParenthesesBalanced | demuxer/Demuxers/LAVFUtils.cpp:199-222 | the opening label is present exactly when the closing parenthesis is |
| StreamDescription.RenderPrefix | demuxer/Demuxers/LAVFUtils.cpp:194-295 | appending segments only extends the string written so far |
| StreamDescription.OpeningText | demuxer/Demuxers/LAVFUtils.cpp:197-206 | the opening is the tag text, the label text and the codec name |
| StreamDescription.VideoExtendsOpening | demuxer/Demuxers/LAVFUtils.cpp:196-223 | the video case only appends after its opening |
| StreamDescription.AudioExtendsOpening | demuxer/Demuxers/LAVFUtils.cpp:224-263 | the audio case only appends after its opening |
| StreamDescription.SubtitleExtendsOpening | demuxer/Demuxers/LAVFUtils.cpp:264-291 | the subtitle case only appends after its opening |
| StreamDescription.OpeningPrefix | demuxer/Demuxers/LAVFUtils.cpp:197-206 | anything appended after the opening leaves the tag, label and codec name at the start |
| StreamDescription.BeginsFor | demuxer/Demuxers/LAVFUtils.cpp:195-295 | for the values computed before the switch, the string begins with tag, label and codec name, or is exactly "Unknown: Stream #" and the index |
| StreamDescription.DescriptionBegins | demuxer/Demuxers/LAVFUtils.cpp:195-295 | a video, audio or subtitle description starts with "V: ", "A: " or "S: ", the label and get_codec_name's result; any other stream's description is exactly "Unknown: Stream #" followed by its index |
| StreamDescription.LabelTextCases | demuxer/Demuxers/LAVFUtils.cpp:177-203 | the label is "title [lang] (" with both, "title (" with a title only, the language's display name (or the language itself) and " (" with a language only, and empty with neither |
| StreamDescription.CloseEnds | demuxer/Demuxers/LAVFUtils.cpp:220-222 | a closing parenthesis ends the string with ")" |
| StreamDescription.DefaultEnds | demuxer/Demuxers/LAVFUtils.cpp:261-262 | a default flag ends the string with " [default]" |
| StreamDescription.CloseDefaultEnds | demuxer/Demuxers/LAVFUtils.cpp:257-262 | a closing parenthesis then the default flag end the string with ") [default]" |
| StreamDescription.FlagsEnd | demuxer/Demuxers/LAVFUtils.cpp:280-290 | the subtitle flags end the string with their text |
| StreamDescription.AudioEnds | demuxer/Demuxers/LAVFUtils.cpp:252-262 | a default audio stream ends with ") [default]" when labelled and " [default]" otherwise; a labelled non-default one ends with ")" |
| StreamDescription.SubtitleEnds | demuxer/Demuxers/LAVFUtils.cpp:275-290 | a forced or hearing-impaired subtitle stream ends with its flags; a labelled one without flags ends with ")" |
| StreamDescription.VideoEnds | demuxer/Demuxers/LAVFUtils.cpp:219-222 | a labelled video stream ends with ")" |
| StreamDescription.EndsFor | demuxer/Demuxers/LAVFUtils.cpp:195-295 | the endings of every media type, for the values computed before the switch |
| StreamDescription.DescriptionEnds | demuxer/Demuxers/LAVFUtils.cpp:219-290 | default audio streams end with " [default]" after the closing parenthesis; flagged subtitle streams end with their flags; every other labelled description ends with the closing parenthesis |

## Left out

- The `ufile_*` callbacks and the `ufile_protocol` table: they adapt the
  platform's file calls and wide-character paths, so they are input and
  output only.
- `lavf_log_callback`: a debug-only log forwarder with static buffers and
  varargs formatting.
- The end of `lavf_describe_stream`: the model stops at the narrow string
  and leaves out its conversion to UTF-16 in memory from `CoTaskMemAlloc`.
  It also leaves out the `E_POINTER` returns for NULL arguments, since a
  `StreamInfo` value is always present.
- The library routines are uninterpreted functions in `MediaLibrary`:
  - decoder lookup, the decoder's name and profile names;
  - both bits-per-sample routines;
  - pixel-format names, the channel-layout string and the codec-tag string;
  - `ProbeLangForLanguage`.

  Truncation to the 32-byte buffers of the channel layout and the codec tag
  is part of what those functions return. The metadata lookups for
  "language" and "title" are `Option` fields of `StreamInfo`.
- Codec ids: the ids the code names are distinct constructors, and every
  other id is `CodecNumber(n)`. The named ones are taken to lie outside the
  PCM block, as they do in the library. A `CodecNumber(n)` whose n is the
  numeric value of a named id is outside the modelled inputs: on such a
  value `NiceName` and `ShowSampleFmt` would not match the source, which
  compares numbers.
- PrepareStream: `show_sample_fmt` and the three disposition bits are
  evaluated once, before the switch, although the source tests them inside
  the cases. They depend only on the stream, so the result is the same.
  Likewise `get_bits_per_sample(enc)`, called twice in the source, is one
  value here.
- LevelText: `%.1f` of `level / 10.0` is written with integers, as the
  tenths with a point before the last digit. This assumes the
  floating-point rounding gives the same digit. It does for any 32-bit
  level: the double nearest to level/10 is much closer than half a tenth.
- LevelText: levels of -100 and below give a text of six bytes or more,
  which does not fit `l_buf[5]`; `sprintf_s` would then call the
  invalid-parameter handler. The model writes the whole text.
- GetBitRate: an audio product that overflows a C `int` is undefined
  behaviour in C++. The model wraps it to 32 bits as two's complement, the
  behaviour of the compiler the project targets. The contract states only
  that the result agrees with the product modulo 2^32, and equals it when
  it fits.
- `avcodec_get_pix_fmt_name` may return NULL, which line 209 would stream
  (undefined behaviour); `pixFmtName` always returns a string. Likewise
  line 107 dereferences `opaque` for subtitle streams without a check; the
  model always has an `opaqueCodecId`.
- IsUndetermined: `strncmp(lang, "und", 3)` on a NUL-terminated string is
  modelled as a character-by-character comparison of the first three
  characters. A shorter string never matches.

## Findings

| source | as written | input that shows it | evidently intended | confidence | as-written member | corrected member |
|---|---|---|---|---|---|---|
| demuxer/Demuxers/LAVFUtils.cpp:116 | the search runs while `i < sizeof(nice_codec_names)`, the table's size in bytes (104 or 208), not its 13 entries, and reads `nice_codec_names[i]` past the end for every id not in the table | any H.264 stream: H.264 has no nice name, so the search reads entry 13 and beyond | bound the loop by the entry count, `sizeof(nice_codec_names) / sizeof(nice_codec_names[0])` | not executed | LavfUtils.H264OverrunsAsWritten | LavfUtils.FindNiceName |
| demuxer/Demuxers/LAVFUtils.cpp:68 | `strncmp(lang, "und", 3)` runs even when `lang` is still NULL | a stream with no "language" metadata tag and an empty legacy language field | report no language (NULL) when neither source gives one | not executed | LavfUtils.GetStreamLanguageAsWritten | LavfUtils.GetStreamLanguage |
