/**
 * The helpers of LAVFUtils.cpp that turn codec metadata into text:
 * upper-casing, the bitrate choice, the sample-format test, the stream
 * language choice, and the codec name with its nice-name table.
 */
module LavfUtils {
  import opened Wrappers
  import opened Numerals
  import opened LavfTypes

  // ----- up -----

  predicate IsLower(c: char) {
    'a' <= c <= 'z'
  }

  /** One character of `up`: 'a'..'z' moves down by 'a' - 'A', anything else is kept. */
  function UpperChar(c: char): char {
    if IsLower(c) then (c as int - ('a' as int - 'A' as int)) as char else c
  }

  /** The string `up` returns. */
  function Upper(s: string): (r: string)
    ensures |r| == |s|
    ensures forall i :: 0 <= i < |s| && IsLower(s[i]) ==> 'A' <= r[i] <= 'Z' && r[i] as int == s[i] as int - 32
    ensures forall i :: 0 <= i < |s| && !IsLower(s[i]) ==> r[i] == s[i]
  {
    if s == [] then [] else [UpperChar(s[0])] + Upper(s[1..])
  }

  /** `up`: fills a string of the same length character by character. */
  method Up(str: string) returns (ret: string)
    ensures ret == Upper(str)
  {
    var len := |str|;
    var buf := new char[len](_ => '\0');
    for i := 0 to len
      invariant forall k :: 0 <= k < i ==> buf[k] == UpperChar(str[k])
    {
      buf[i] := if str[i] <= 'z' && str[i] >= 'a' then (str[i] as int - ('a' as int - 'A' as int)) as char else str[i];
    }
    ret := buf[..];
    assert forall k :: 0 <= k < len ==> ret[k] == Upper(str)[k];
  }

  /** Upper-casing leaves no letter 'a'..'z' behind. */
  lemma UpperHasNoLower(s: string)
    ensures forall i :: 0 <= i < |Upper(s)| ==> !IsLower(Upper(s)[i])
  {
  }

  /** Upper-casing twice is upper-casing once. */
  lemma UpperIdempotent(s: string)
    ensures Upper(Upper(s)) == Upper(s)
  {
    var u := Upper(s);
    UpperHasNoLower(s);
    assert forall i :: 0 <= i < |u| ==> Upper(u)[i] == u[i];
  }

  // ----- get_bit_rate -----

  /** The product `sample_rate * channels * bits_per_sample` before it is stored in an `int`. */
  function AudioBitRateProduct(lib: MediaLibrary, ctx: CodecCtx): int {
    ctx.sampleRate * ctx.channels * lib.codecBitsPerSample(ctx.codecId)
  }

  /** `get_bit_rate`: the stream's bitrate, computed from the sample rate,
      channel count and bits per sample for any audio codec whose bits-per-sample
      is non-zero. */
  function GetBitRate(lib: MediaLibrary, ctx: CodecCtx): (r: Int32)
    ensures ctx.codecType in {Video, Data, Subtitle, Attachment} ==> r == ctx.bitRate
    ensures ctx.codecType == Audio && lib.codecBitsPerSample(ctx.codecId) == 0 ==> r == ctx.bitRate
    ensures ctx.codecType == Audio && lib.codecBitsPerSample(ctx.codecId) != 0 ==>
              (r - AudioBitRateProduct(lib, ctx)) % 0x1_0000_0000 == 0
    ensures ctx.codecType == Audio && lib.codecBitsPerSample(ctx.codecId) != 0 &&
            -0x8000_0000 <= AudioBitRateProduct(lib, ctx) < 0x8000_0000 ==>
              r == AudioBitRateProduct(lib, ctx)
    ensures ctx.codecType == Unknown ==> r == 0
  {
    match ctx.codecType
    case Video | Data | Subtitle | Attachment => ctx.bitRate
    case Audio =>
      var bitsPerSample := lib.codecBitsPerSample(ctx.codecId);
      if bitsPerSample != 0 then WrapInt32(AudioBitRateProduct(lib, ctx)) else ctx.bitRate
    case Unknown => 0
  }

  // ----- show_sample_fmt -----

  /** The PCM block of codec ids, 0x10000 up to (not including) 0x12000. */
  predicate InPcmBlock(id: CodecId) {
    id.CodecNumber? && 0x10000 <= id.n < 0x12000
  }

  const LosslessCodecs: set<CodecId> := {Mlp, TrueHd, Flac, WmaLossless, WavPack, Mp4Als, Alac}

  /** `show_sample_fmt`: whether the description shows the sample format of this codec. */
  function ShowSampleFmt(id: CodecId): (r: bool)
    ensures r <==> InPcmBlock(id) || id in LosslessCodecs
  {
    if id.CodecNumber? && id.n >= 0x10000 && id.n < 0x12000 then true
    else if id == Mlp || id == TrueHd || id == Flac || id == WmaLossless
         || id == WavPack || id == Mp4Als || id == Alac then true
    else false
  }

  // ----- get_stream_language -----

  /** `strncmp(lang, "und", 3) == 0`: the first three characters are "und". */
  predicate IsUndetermined(lang: string) {
    |lang| >= 3 && lang[0] == 'u' && lang[1] == 'n' && lang[2] == 'd'
  }

  /** The language `get_stream_language` picks before its "und" test: the tag, else a non-empty legacy field. */
  function PickedLanguage(st: StreamInfo): Option<string> {
    if st.languageTag.Some? then st.languageTag
    else if |st.legacyLanguage| > 0 then Some(st.legacyLanguage)
    else None
  }

  /** `get_stream_language`; None stands for the NULL result. */
  function GetStreamLanguage(st: StreamInfo): (r: Option<string>)
    ensures st.languageTag.Some? ==>
              r == if IsUndetermined(st.languageTag.value) then None else st.languageTag
    ensures st.languageTag.None? && st.legacyLanguage != [] ==>
              r == if IsUndetermined(st.legacyLanguage) then None else Some(st.legacyLanguage)
    ensures st.languageTag.None? && st.legacyLanguage == [] ==> r == None
    ensures r.Some? ==> !IsUndetermined(r.value)
  {
    var lang := PickedLanguage(st);
    if lang.Some? && !IsUndetermined(lang.value) then lang else None
  }

  /** What a C fragment does: a value, or behaviour the language leaves undefined. */
  datatype Behaviour<T> = Defined(value: T) | Undefined

  /**
   * `get_stream_language` as written: with neither a language tag nor a
   * legacy language, `lang` is still NULL when `strncmp` reads it.
   */
  function GetStreamLanguageAsWritten(st: StreamInfo): Behaviour<Option<string>> {
    var lang := PickedLanguage(st);
    if lang.None? then Undefined
    else Defined(if !IsUndetermined(lang.value) then lang else None)
  }

  /** A stream without any language makes the code as written read through NULL; the model says "no language". */
  lemma NullLanguageAsWritten(st: StreamInfo)
    requires st.languageTag.None? && st.legacyLanguage == ""
    ensures GetStreamLanguageAsWritten(st) == Undefined
    ensures GetStreamLanguage(st) == None
  {
  }

  /** Wherever the code as written is defined, the model agrees with it. */
  lemma LanguageAgreesWhereDefined(st: StreamInfo)
    ensures GetStreamLanguageAsWritten(st).Defined? ==> GetStreamLanguageAsWritten(st).value == GetStreamLanguage(st)
    ensures GetStreamLanguageAsWritten(st).Undefined? <==> st.languageTag.None? && st.legacyLanguage == ""
  {
  }

  // ----- nice_codec_names and get_codec_name -----

  const NiceCodecNames: seq<(CodecId, string)> := [
    // Video
    (Vc1, "VC-1"),
    (Mpeg2Video, "MPEG-2"),
    // Audio
    (TrueHd, "TrueHD"),
    (Ac3, "AC-3"),
    (Eac3, "E-AC3"),
    (AacLatm, "AAC (LATM)"),
    // Subtitles
    (Text, "Text"),
    (Srt, "SRT"),
    (HdmvPgsSubtitle, "PGS"),
    (DvdSubtitle, "DVD/VOB"),
    (DvbSubtitle, "DVB"),
    (Ssa, "SSA/ASS"),
    (Xsub, "XSUB")
  ]

  /** The name of the first entry of table at or after index i whose id is id. */
  function FirstMatchFrom(table: seq<(CodecId, string)>, id: CodecId, i: nat): Option<string>
    decreases |table| - i
  {
    if i >= |table| then None
    else if table[i].0 == id then Some(table[i].1)
    else FirstMatchFrom(table, id, i + 1)
  }

  /** The nice name of a codec id: the name of the first table entry with that id, if any. */
  function NiceName(id: CodecId): Option<string> {
    FirstMatchFrom(NiceCodecNames, id, 0)
  }

  /** The search from i stops at the first matching entry j. */
  lemma {:induction false} FirstMatchAt(table: seq<(CodecId, string)>, id: CodecId, i: nat, j: nat)
    requires i <= j < |table| && table[j].0 == id
    requires forall k :: i <= k < j ==> table[k].0 != id
    ensures FirstMatchFrom(table, id, i) == Some(table[j].1)
    decreases j - i
  {
    if i < j {
      FirstMatchAt(table, id, i + 1, j);
    }
  }

  /** The search from i finds nothing when no entry from i on matches. */
  lemma {:induction false} NoMatchFrom(table: seq<(CodecId, string)>, id: CodecId, i: nat)
    requires forall k :: i <= k < |table| ==> table[k].0 != id
    ensures FirstMatchFrom(table, id, i) == None
    decreases |table| - i
  {
    if i < |table| {
      NoMatchFrom(table, id, i + 1);
    }
  }

  /**
   * What the search from i finds: None exactly when no entry from i on has
   * the id, and otherwise the name of the first entry that has it.
   */
  lemma {:induction false} FirstMatchMeaning(table: seq<(CodecId, string)>, id: CodecId, i: nat)
    ensures FirstMatchFrom(table, id, i).None? <==> forall k :: i <= k < |table| ==> table[k].0 != id
    ensures FirstMatchFrom(table, id, i).Some? ==>
              exists j :: i <= j < |table| && table[j] == (id, FirstMatchFrom(table, id, i).value)
                          && forall k :: i <= k < j ==> table[k].0 != id
    decreases |table| - i
  {
    if i < |table| && table[i].0 != id {
      FirstMatchMeaning(table, id, i + 1);
    }
  }

  /** Every id in the table gets the name its own entry gives: no earlier entry has the same id. */
  lemma NiceNameOfEntry(j: nat)
    requires j < |NiceCodecNames|
    ensures forall k :: 0 <= k < j ==> NiceCodecNames[k].0 != NiceCodecNames[j].0
    ensures NiceName(NiceCodecNames[j].0) == Some(NiceCodecNames[j].1)
  {
    FirstMatchAt(NiceCodecNames, NiceCodecNames[j].0, 0, j);
  }

  /**
   * The search loop of `get_codec_name` as written, from index i: it runs
   * while i < tableBytes, `sizeof(nice_codec_names)`, which counts bytes, and
   * reads `nice_codec_names[i]` even once i is past the last entry.
   */
  function NiceNameSearchAsWritten(id: CodecId, tableBytes: nat, i: nat): Behaviour<Option<string>>
    decreases tableBytes - i
  {
    if i >= tableBytes then Defined(None)
    else if i >= |NiceCodecNames| then Undefined
    else if NiceCodecNames[i].0 == id then Defined(Some(NiceCodecNames[i].1))
    else NiceNameSearchAsWritten(id, tableBytes, i + 1)
  }

  /**
   * Each entry holds an enum and a pointer, so the byte count exceeds the 13
   * entries (104 bytes on 32-bit Windows, 208 on 64-bit): any id missing from
   * the table sends the search as written past the table's end.
   */
  lemma {:induction false} AsWrittenSearchOverruns(id: CodecId, tableBytes: nat, i: nat)
    requires tableBytes > |NiceCodecNames| && i <= |NiceCodecNames|
    requires forall k :: i <= k < |NiceCodecNames| ==> NiceCodecNames[k].0 != id
    ensures NiceNameSearchAsWritten(id, tableBytes, i) == Undefined
    decreases |NiceCodecNames| - i
  {
    if i < |NiceCodecNames| {
      AsWrittenSearchOverruns(id, tableBytes, i + 1);
    }
  }

  /** H.264, the most common video codec, has no nice name, so naming it overruns the table as written. */
  lemma H264OverrunsAsWritten(tableBytes: nat)
    requires tableBytes > |NiceCodecNames|
    ensures NiceNameSearchAsWritten(H264, tableBytes, 0) == Undefined
    ensures NiceName(H264) == None
  {
    AsWrittenSearchOverruns(H264, tableBytes, 0);
    NoMatchFrom(NiceCodecNames, H264, 0);
  }

  /**
   * The search loop of `get_codec_name` over nice_codec_names, bounded by the
   * table's length.
   */
  method FindNiceName(id: CodecId) returns (niceName: Option<string>)
    ensures niceName == NiceName(id)
  {
    niceName := None;
    var i := 0;
    while i < |NiceCodecNames|
      invariant 0 <= i <= |NiceCodecNames|
      invariant niceName.None?
      invariant forall k :: 0 <= k < i ==> NiceCodecNames[k].0 != id
    {
      if NiceCodecNames[i].0 == id {
        niceName := Some(NiceCodecNames[i].1);
        FirstMatchAt(NiceCodecNames, id, 0, i);
        return;
      }
      i := i + 1;
    }
    NoMatchFrom(NiceCodecNames, id, 0);
  }

  /** The id get_codec_name looks up: for subtitles the one kept behind `opaque`. */
  function EffectiveCodecId(ctx: CodecCtx): CodecId {
    if ctx.codecType == Subtitle then ctx.opaqueCodecId else ctx.codecId
  }

  /** The decoder's name for the context's profile, if there is a decoder and it names the profile. */
  function ProfileName(lib: MediaLibrary, ctx: CodecCtx): Option<string> {
    var p := lib.findDecoder(EffectiveCodecId(ctx));
    if p.Some? then p.value.profileName(ctx.profile) else None
  }

  /** Whether the H.264 name carries its level. */
  predicate LevelShown(level: int) {
    level != 0 && level != LevelUnknown && level < 1000
  }

  /**
   * `sprintf "%.1f"` of `level / 10.0`, written with integers: the tenths of
   * level with a point before the last digit.
   */
  function LevelText(level: int): string {
    var m: nat := if level < 0 then -level else level;
    (if level < 0 then "-" else "") + TenthsText(m)
  }

  /** A count of tenths with one digit after the point. */
  function TenthsText(m: nat): string {
    Digits(m / 10, 10) + "." + [DigitChar(m % 10)]
  }

  /** Reads back LevelText: the digits before the point are the units, the one after it the tenths. */
  function ParseLevel(s: string): int {
    var neg := |s| > 0 && s[0] == '-';
    var body := if neg then s[1..] else s;
    var tenths := if |body| < 2 then 0 else ValueOf(body[..|body| - 2], 10) * 10 + DigitValue(body[|body| - 1]);
    if neg then -tenths else tenths
  }

  lemma TenthsTextRoundTrip(m: nat)
    ensures var t := TenthsText(m);
            && |t| >= 3 && t[|t| - 2] == '.' && t[0] != '-'
            && ValueOf(t[..|t| - 2], 10) * 10 + DigitValue(t[|t| - 1]) == m
    ensures var t := TenthsText(m);
            forall j :: 0 <= j < |t| && j != |t| - 2 ==> '0' <= t[j] <= '9'
    ensures m >= 10 ==> TenthsText(m)[0] != '0'
    ensures m < 10 ==> |TenthsText(m)| == 3
  {
    var d := Digits(m / 10, 10);
    var t := TenthsText(m);
    assert t[..|t| - 2] == d;
    DigitsRoundTrip(m / 10, 10);
    DigitsBelowBase(m / 10, 10);
    DigitCharValue(m % 10);
    assert IsDigit(d[0]);
  }

  /** LevelText has one digit after the point and reads back as the level. */
  lemma LevelTextRoundTrip(level: int)
    ensures |LevelText(level)| >= 3
    ensures LevelText(level)[|LevelText(level)| - 2] == '.'
    ensures ParseLevel(LevelText(level)) == level
    ensures var t := LevelText(level);
            forall j :: (if level < 0 then 1 else 0) <= j < |t| && j != |t| - 2 ==> '0' <= t[j] <= '9'
    ensures (level <= -10 || 10 <= level) ==> LevelText(level)[if level < 0 then 1 else 0] != '0'
    ensures -10 < level < 10 ==> |LevelText(level)| == (if level < 0 then 4 else 3)
  {
    var m: nat := if level < 0 then -level else level;
    var t := TenthsText(m);
    TenthsTextRoundTrip(m);
    if level < 0 {
      assert LevelText(level) == "-" + t;
      assert ("-" + t)[1..] == t;
    } else {
      assert LevelText(level) == t;
    }
  }

  /** `"0x%04X"` of the codec tag. */
  function TagHex(tag: UInt32): string {
    "0x" + Hex4(tag)
  }

  /** The H.264 name: the profile, then the level when LevelShown holds. */
  function H264Name(profile: string, level: int): string {
    "H.264 " + profile + (if LevelShown(level) then " L" + LevelText(level) else "")
  }

  /** The last resort: the codec tag as text, then its hexadecimal value. */
  function TagName(lib: MediaLibrary, tag: UInt32): string {
    lib.codecTagString(tag) + " / " + TagHex(tag)
  }

  /**
   * The priority chain of `get_codec_name` once the nice-name search has
   * given niceName: the first of the H.264 profile and level, the DTS profile,
   * the nice name, the upper-cased decoder name, the upper-cased context
   * codec name and the codec tag that applies.
   */
  function CodecNameWith(lib: MediaLibrary, ctx: CodecCtx, niceName: Option<string>): string {
    var id := EffectiveCodecId(ctx);
    var p := lib.findDecoder(id);
    var profile := ProfileName(lib, ctx);
    if id == H264 && profile.Some? then
      H264Name(profile.value, ctx.level)
    else if id == Dts && profile.Some? then profile.value
    else if niceName.Some? then niceName.value
    else if p.Some? then Upper(p.value.name)
    else if ctx.codecName != "" then Upper(ctx.codecName)
    else TagName(lib, ctx.codecTag)
  }

  /** The string `get_codec_name` returns. */
  function CodecName(lib: MediaLibrary, ctx: CodecCtx): string {
    CodecNameWith(lib, ctx, NiceName(EffectiveCodecId(ctx)))
  }

  /**
   * The rules of `get_codec_name` in priority order, each with the name it
   * gives, or None where it does not apply; the last always applies.
   */
  function NameRules(lib: MediaLibrary, ctx: CodecCtx): seq<Option<string>> {
    var id := EffectiveCodecId(ctx);
    var p := lib.findDecoder(id);
    var profile := ProfileName(lib, ctx);
    [ if id == H264 && profile.Some? then Some(H264Name(profile.value, ctx.level)) else None,
      if id == Dts && profile.Some? then profile else None,
      NiceName(id),
      if p.Some? then Some(Upper(p.value.name)) else None,
      if ctx.codecName != "" then Some(Upper(ctx.codecName)) else None,
      Some(TagName(lib, ctx.codecTag)) ]
  }

  /** The codec name is given by the first rule that applies. */
  lemma CodecNameFirstApplicable(lib: MediaLibrary, ctx: CodecCtx)
    ensures var rules := NameRules(lib, ctx);
            exists k :: 0 <= k < |rules| && rules[k] == Some(CodecName(lib, ctx))
                        && forall j :: 0 <= j < k ==> rules[j].None?
  {
    var rules := NameRules(lib, ctx);
    var k := if rules[0].Some? then 0 else if rules[1].Some? then 1 else if rules[2].Some? then 2
             else if rules[3].Some? then 3 else if rules[4].Some? then 4 else 5;
    assert rules[k] == Some(CodecName(lib, ctx));
    assert forall j :: 0 <= j < k ==> rules[j].None?;
  }

  /** `get_codec_name`: the table search, then the appends to the output stream. */
  method GetCodecName(lib: MediaLibrary, ctx: CodecCtx) returns (name: string)
    ensures name == CodecName(lib, ctx)
  {
    var id := if ctx.codecType == Subtitle then ctx.opaqueCodecId else ctx.codecId;
    var niceName := FindNiceName(id);
    name := FormatCodecName(lib, ctx, niceName);
  }

  /** The appends of `get_codec_name` after its table search. */
  method FormatCodecName(lib: MediaLibrary, ctx: CodecCtx, niceName: Option<string>) returns (name: string)
    ensures name == CodecNameWith(lib, ctx, niceName)
  {
    var id := if ctx.codecType == Subtitle then ctx.opaqueCodecId else ctx.codecId;
    var p := lib.findDecoder(id);
    var profile := if p.Some? then p.value.profileName(ctx.profile) else None;

    name := "";
    if id == H264 && profile.Some? {
      name := AppendH264Name(name, profile.value, ctx.level);
    } else if id == Dts && profile.Some? {
      name := name + profile.value;
    } else if niceName.Some? {
      name := name + niceName.value;
    } else if p.Some? {
      var upper := Up(p.value.name);
      name := name + upper;
    } else if ctx.codecName != "" {
      var upper := Up(ctx.codecName);
      name := name + upper;
    } else {
      name := AppendTagName(lib, name, ctx.codecTag);
    }
  }

  /** The H.264 branch: the profile, then " L" and the level when the level is known and below 1000. */
  method AppendH264Name(name: string, profile: string, level: int) returns (name': string)
    ensures name' == name + H264Name(profile, level)
  {
    var levelPart := "";
    if level != 0 && level != LevelUnknown && level < 1000 {
      levelPart := " L" + LevelText(level);
    }
    name' := name + ("H.264 " + profile + levelPart);
  }

  /** The last-resort branch: the tag as text, " / ", then the tag in hexadecimal. */
  method AppendTagName(lib: MediaLibrary, name: string, tag: UInt32) returns (name': string)
    ensures name' == name + TagName(lib, tag)
  {
    name' := name + lib.codecTagString(tag);
    name' := name' + " / " + TagHex(tag);
  }
}
