/**
 * The one-line stream description of `lavf_describe_stream`, up to the
 * narrow string it builds. A description is modelled as a sequence of
 * segments, each with its text; Segments says which segments a stream gets
 * and Render concatenates their texts. DescribeStream builds the string by
 * successive appends, as the source does, and is proved to produce
 * Render(Segments(...)). The lemmas at the end state, for every media type,
 * which segments appear, in which order, and how the string begins and ends.
 */
module StreamDescription {
  import opened Wrappers
  import opened Numerals
  import opened LavfTypes
  import opened LavfUtils

  datatype Segment =
    | VideoTag | AudioTag | SubtitleTag
    /** The title or the language, then the opening parenthesis. */
    | Label(text: string)
    /** The title, the raw language in brackets, then the opening parenthesis. */
    | LabelWithLanguage(title: string, language: string)
    | Codec(name: string)
    | PixelFormat(name: string)
    | Dimensions(width: int, height: int)
    | SampleRate(hz: int)
    | Channels(layout: string)
    | SampleBits(float: bool, bits: int)
    | Bitrate(kbps: int)
    | CloseParen
    | DefaultFlag
    | SubtitleFlags(forced: bool, hearingImpaired: bool)
    | UnknownStream(index: int)

  /** What a segment is, without its contents. */
  datatype Kind =
    | KTag | KLabel | KCodec | KPixFmt | KDims | KRate | KChannels
    | KSampleBits | KBitrate | KClose | KDefault | KSubFlags | KUnknown

  function KindOf(seg: Segment): Kind {
    match seg
    case VideoTag | AudioTag | SubtitleTag => KTag
    case Label(_) | LabelWithLanguage(_, _) => KLabel
    case Codec(_) => KCodec
    case PixelFormat(_) => KPixFmt
    case Dimensions(_, _) => KDims
    case SampleRate(_) => KRate
    case Channels(_) => KChannels
    case SampleBits(_, _) => KSampleBits
    case Bitrate(_) => KBitrate
    case CloseParen => KClose
    case DefaultFlag => KDefault
    case SubtitleFlags(_, _) => KSubFlags
    case UnknownStream(_) => KUnknown
  }

  /** The one order in which segments appear, whatever the media type. */
  function Rank(k: Kind): nat {
    match k
    case KTag => 0
    case KLabel => 1
    case KCodec => 2
    case KPixFmt => 3
    case KDims => 4
    case KRate => 5
    case KChannels => 6
    case KSampleBits => 7
    case KBitrate => 8
    case KClose => 9
    case KDefault => 10
    case KSubFlags => 11
    case KUnknown => 12
  }

  function SubtitleFlagsText(forced: bool, hearingImpaired: bool): string {
    " [" + (if forced then "forced" else "")
    + (if hearingImpaired then (if forced then ", " else "") + "hearing impaired" else "")
    + "]"
  }

  /** What each segment appends to the description. */
  function SegmentText(seg: Segment): string {
    match seg
    case VideoTag => "V: "
    case AudioTag => "A: "
    case SubtitleTag => "S: "
    case Label(text) => text + " ("
    case LabelWithLanguage(title, language) => title + " [" + language + "] ("
    case Codec(name) => name
    case PixelFormat(name) => ", " + name
    case Dimensions(width, height) => ", " + Decimal(width) + "x" + Decimal(height)
    case SampleRate(hz) => ", " + Decimal(hz) + " Hz"
    case Channels(layout) => ", " + layout
    case SampleBits(float, bits) => (if float then ", fp" else ", s") + Decimal(bits)
    case Bitrate(kbps) => ", " + Decimal(kbps) + " kb/s"
    case CloseParen => ")"
    case DefaultFlag => " [default]"
    case SubtitleFlags(forced, hearingImpaired) => SubtitleFlagsText(forced, hearingImpaired)
    case UnknownStream(index) => "Unknown: Stream #" + Decimal(index)
  }

  /**
   * The segments appended so far, the latest last: the state of the
   * `ostringstream` as a list of what was written to it.
   */
  datatype SegmentList = Nil | Snoc(init: SegmentList, last: Segment)

  /** The concatenated texts of the segments, in order. */
  function Render(segs: SegmentList): string {
    match segs
    case Nil => ""
    case Snoc(init, last) => Render(init) + SegmentText(last)
  }

  function LastRank(segs: SegmentList): int {
    match segs
    case Nil => -1
    case Snoc(_, last) => Rank(KindOf(last))
  }

  /** Each segment's rank is above the previous one's, so each kind appears at most once and in Rank order. */
  predicate Increasing(segs: SegmentList) {
    match segs
    case Nil => true
    case Snoc(init, last) => Increasing(init) && LastRank(init) < Rank(KindOf(last))
  }

  /** One conditional append, `if (cond) buf << ...`. */
  function Emit(segs: SegmentList, cond: bool, seg: Segment): SegmentList {
    if cond then Snoc(segs, seg) else segs
  }

  /** The segment of kind k, the latest one if there were several; None when there is none. */
  function SegmentOfKind(segs: SegmentList, k: Kind): Option<Segment> {
    match segs
    case Nil => None
    case Snoc(init, last) => if KindOf(last) == k then Some(last) else SegmentOfKind(init, k)
  }

  /** Whether longer is shorter with further segments appended. */
  predicate IsPrefixList(shorter: SegmentList, longer: SegmentList) {
    shorter == longer || (longer.Snoc? && IsPrefixList(shorter, longer.init))
  }

  /** Whether s ends with x. */
  predicate EndsWith(s: string, x: string) {
    |x| <= |s| && s[|s| - |x|..] == x
  }

  // ----- what the description is made of -----

  /** `sLanguage`: the language's display name, or the language itself when the probe knows none. */
  function DisplayLanguage(lib: MediaLibrary, lang: string): string {
    var probed := lib.probeLanguage(lang);
    if probed == "" then lang else probed
  }

  /**
   * The values `lavf_describe_stream` computes before its switch on the media
   * type: the codec name, the language (None for NULL), `sLanguage`, the
   * title (None for NULL) and the bitrate; and, decoded here once although
   * the source tests them inside the cases, whether `show_sample_fmt` holds
   * for the codec and which of the default, forced and hearing-impaired
   * disposition bits are set. These depend on the stream alone, so reading
   * them before the switch changes nothing.
   */
  datatype Prepared = Prepared(
    codecName: string,
    lang: Option<string>,
    sLanguage: string,
    title: Option<string>,
    bitrate: Int32,
    showSampleFmt: bool,
    isDefault: bool,
    forced: bool,
    hearingImpaired: bool)

  function Prepare(lib: MediaLibrary, st: StreamInfo): Prepared {
    var lang := GetStreamLanguage(st);
    Prepared(CodecName(lib, st.codec), lang,
             if lang.Some? then DisplayLanguage(lib, lang.value) else "",
             st.titleTag, GetBitRate(lib, st.codec), ShowSampleFmt(st.codec.codecId),
             HasFlag(st.disposition, DispositionDefault), HasFlag(st.disposition, DispositionForced),
             HasFlag(st.disposition, DispositionHearingImpaired))
  }

  /** Whether there is a title or a language, which opens and later closes a parenthesis. */
  predicate Labelled(p: Prepared) {
    p.title.Some? || p.lang.Some?
  }

  /** The label segment used when Labelled holds. */
  function Head(p: Prepared): Segment {
    if p.title.Some? && p.lang.Some? then LabelWithLanguage(p.title.value, p.lang.value)
    else if p.title.Some? then Label(p.title.value)
    else Label(p.sLanguage)
  }

  /** The media-type tag, the label when there is one, and the codec name. */
  function Opening(tag: Segment, p: Prepared): SegmentList {
    Snoc(Emit(Snoc(Nil, tag), Labelled(p), Head(p)), Codec(p.codecName))
  }

  predicate IsFloatFormat(fmt: SampleFormat) {
    fmt == Flt || fmt == Dbl
  }

  /** The pixel format and the dimensions of a video stream, after segs. */
  function VideoFormat(lib: MediaLibrary, enc: CodecCtx, segs: SegmentList): SegmentList {
    var s := Emit(segs, enc.pixFmt != PixFmtNone, PixelFormat(lib.pixFmtName(enc.pixFmt)));
    Emit(s, enc.width != 0, Dimensions(enc.width, enc.height))
  }

  function VideoSegments(lib: MediaLibrary, enc: CodecCtx, p: Prepared): SegmentList {
    var s := VideoFormat(lib, enc, Opening(VideoTag, p));
    var s := Emit(s, p.bitrate > 0, Bitrate(p.bitrate / 1000));
    Emit(s, Labelled(p), CloseParen)
  }

  /** The sample rate, the channel layout and the sample format of an audio stream, after segs. */
  function AudioFormat(lib: MediaLibrary, enc: CodecCtx, showFmt: bool, segs: SegmentList): SegmentList {
    var bits := lib.streamBitsPerSample(enc);
    var s := Emit(segs, enc.sampleRate != 0, SampleRate(enc.sampleRate));
    var s := Snoc(s, Channels(lib.channelLayoutString(enc.channels, enc.channelLayout)));
    Emit(s, showFmt && bits != 0, SampleBits(IsFloatFormat(enc.sampleFmt), bits))
  }

  function AudioSegments(lib: MediaLibrary, enc: CodecCtx, p: Prepared): SegmentList {
    var s := AudioFormat(lib, enc, p.showSampleFmt, Opening(AudioTag, p));
    var s := Emit(s, p.bitrate > 0, Bitrate(p.bitrate / 1000));
    var s := Emit(s, Labelled(p), CloseParen);
    Emit(s, p.isDefault, DefaultFlag)
  }

  function SubtitleSegments(p: Prepared): SegmentList {
    var s := Opening(SubtitleTag, p);
    var s := Emit(s, Labelled(p), CloseParen);
    Emit(s, p.forced || p.hearingImpaired, SubtitleFlags(p.forced, p.hearingImpaired))
  }

  /** The segments of the stream's description, appended under the guards the source tests. */
  function Segments(lib: MediaLibrary, st: StreamInfo): SegmentList {
    SegmentsFor(lib, st, Prepare(lib, st))
  }

  /** The switch on the media type, given the values computed before it. */
  function SegmentsFor(lib: MediaLibrary, st: StreamInfo, p: Prepared): SegmentList {
    match st.codec.codecType
    case Video => VideoSegments(lib, st.codec, p)
    case Audio => AudioSegments(lib, st.codec, p)
    case Subtitle => SubtitleSegments(p)
    case _ => Snoc(Nil, UnknownStream(st.index))
  }

  /** The tag a media type's description starts with; None for the types described as unknown. */
  function TypeTag(t: MediaType): Option<Segment> {
    match t
    case Video => Some(VideoTag)
    case Audio => Some(AudioTag)
    case Subtitle => Some(SubtitleTag)
    case _ => None
  }

  /** The description string, before its conversion to UTF-16. */
  function Describe(lib: MediaLibrary, st: StreamInfo): string {
    Render(Segments(lib, st))
  }

  // ----- the string building of lavf_describe_stream -----

  /** The body of `lavf_describe_stream` up to `buf.str()`. */
  method DescribeStream(lib: MediaLibrary, st: StreamInfo) returns (info: string)
    ensures info == Describe(lib, st)
  {
    var p := PrepareStream(lib, st);
    info := DescribeFor(lib, st, p);
  }

  /** The switch on the media type, given the values computed before it. */
  method DescribeFor(lib: MediaLibrary, st: StreamInfo, p: Prepared) returns (info: string)
    ensures info == Render(SegmentsFor(lib, st, p))
  {
    match st.codec.codecType {
      case Video =>
        info := DescribeVideo(lib, st.codec, p);
      case Audio =>
        info := DescribeAudio(lib, st.codec, p);
      case Subtitle =>
        info := DescribeSubtitle(p);
      case _ =>
        info := "";
        info := info + ("Unknown: Stream #" + Decimal(st.index));
        assert info == Render(Snoc(Nil, UnknownStream(st.index)));
    }
  }

  /** The statements of `lavf_describe_stream` before its switch on the media type. */
  method PrepareStream(lib: MediaLibrary, st: StreamInfo) returns (p: Prepared)
    ensures p == Prepare(lib, st)
  {
    var enc := st.codec;
    var codecName := GetCodecName(lib, enc);

    var lang := GetStreamLanguage(st);
    var sLanguage := "";
    if lang.Some? {
      sLanguage := lib.probeLanguage(lang.value);
      if sLanguage == "" {
        sLanguage := lang.value;
      }
    }
    var title := st.titleTag;
    var bitrate := GetBitRate(lib, enc);
    var showFmt := ShowSampleFmt(enc.codecId);
    var isDefault := st.disposition & DispositionDefault != 0;
    var forced := st.disposition & DispositionForced != 0;
    var hearingImpaired := st.disposition & DispositionHearingImpaired != 0;
    p := Prepared(codecName, lang, sLanguage, title, bitrate, showFmt, isDefault, forced, hearingImpaired);
  }

  /**
   * The part the three media types share: after the type tag, the title and
   * language with the opening parenthesis, then the codec name.
   */
  method AppendOpening(tag: Segment, p: Prepared, buf: string) returns (buf': string)
    requires buf == SegmentText(tag)
    ensures buf' == Render(Opening(tag, p))
  {
    assert Render(Snoc(Nil, tag)) == buf;
    buf' := buf;
    // Title/Language
    if p.title.Some? && p.lang.Some? {
      buf' := buf' + (p.title.value + " [" + p.lang.value + "] (");
    } else if p.title.Some? || p.lang.Some? {
      buf' := buf' + ((if p.title.Some? then p.title.value else p.sLanguage) + " (");
    }
    assert buf' == Render(Emit(Snoc(Nil, tag), Labelled(p), Head(p)));
    // Codec
    buf' := buf' + p.codecName;
  }

  /** The video case of the switch in `lavf_describe_stream`. */
  method DescribeVideo(lib: MediaLibrary, enc: CodecCtx, p: Prepared) returns (buf: string)
    ensures buf == Render(VideoSegments(lib, enc, p))
  {
    buf := "";
    buf := buf + "V: ";
    buf := AppendOpening(VideoTag, p, buf);
    ghost var segs := Opening(VideoTag, p);
    buf := AppendVideoFormat(lib, enc, buf, segs);
    segs := VideoFormat(lib, enc, segs);
    // Bitrate
    buf := AppendBitrate(buf, segs, p.bitrate);
    segs := Emit(segs, p.bitrate > 0, Bitrate(p.bitrate / 1000));
    // Closing parenthesis
    if p.title.Some? || p.lang.Some? {
      buf := buf + ")";
    }
    segs := Emit(segs, Labelled(p), CloseParen);
    assert buf == Render(segs);
    assert segs == VideoSegments(lib, enc, p);
  }

  /** The audio case of the switch in `lavf_describe_stream`. */
  method DescribeAudio(lib: MediaLibrary, enc: CodecCtx, p: Prepared) returns (buf: string)
    ensures buf == Render(AudioSegments(lib, enc, p))
  {
    buf := "";
    buf := buf + "A: ";
    buf := AppendOpening(AudioTag, p, buf);
    ghost var segs := Opening(AudioTag, p);
    buf := AppendAudioFormat(lib, enc, p.showSampleFmt, buf, segs);
    segs := AudioFormat(lib, enc, p.showSampleFmt, segs);
    // Bitrate
    buf := AppendBitrate(buf, segs, p.bitrate);
    segs := Emit(segs, p.bitrate > 0, Bitrate(p.bitrate / 1000));
    // Closing parenthesis
    if p.title.Some? || p.lang.Some? {
      buf := buf + ")";
    }
    segs := Emit(segs, Labelled(p), CloseParen);
    assert buf == Render(segs);
    // Default flag
    if p.isDefault {
      buf := buf + " [default]";
    }
    segs := Emit(segs, p.isDefault, DefaultFlag);
    assert buf == Render(segs);
    assert segs == AudioSegments(lib, enc, p);
  }

  /** The subtitle case of the switch in `lavf_describe_stream`. */
  method DescribeSubtitle(p: Prepared) returns (buf: string)
    ensures buf == Render(SubtitleSegments(p))
  {
    buf := "";
    buf := buf + "S: ";
    buf := AppendOpening(SubtitleTag, p, buf);
    ghost var segs := Opening(SubtitleTag, p);
    // Closing parenthesis
    if p.title.Some? || p.lang.Some? {
      buf := buf + ")";
    }
    segs := Emit(segs, Labelled(p), CloseParen);
    assert buf == Render(segs);
    // Subtitle flags
    var forced := p.forced;
    var hearingImpaired := p.hearingImpaired;
    if forced || hearingImpaired {
      var flags := " [";
      if forced {
        flags := flags + "forced";
      }
      if hearingImpaired {
        if forced {
          flags := flags + ", ";
        }
        flags := flags + "hearing impaired";
      }
      flags := flags + "]";
      assert flags == SubtitleFlagsText(forced, hearingImpaired);
      buf := buf + flags;
    }
    segs := Emit(segs, forced || hearingImpaired, SubtitleFlags(forced, hearingImpaired));
    assert buf == Render(segs);
  }

  /** The pixel format and dimensions part of the video case. */
  method AppendVideoFormat(lib: MediaLibrary, enc: CodecCtx, buf: string, ghost segs: SegmentList) returns (buf': string)
    requires buf == Render(segs)
    ensures buf' == Render(VideoFormat(lib, enc, segs))
  {
    buf' := buf;
    ghost var s := segs;
    // Pixel format
    if enc.pixFmt != PixFmtNone {
      buf' := buf' + (", " + lib.pixFmtName(enc.pixFmt));
    }
    s := Emit(s, enc.pixFmt != PixFmtNone, PixelFormat(lib.pixFmtName(enc.pixFmt)));
    assert buf' == Render(s);
    // Dimensions
    if enc.width != 0 {
      buf' := buf' + (", " + Decimal(enc.width) + "x" + Decimal(enc.height));
    }
  }

  /** The sample rate, channel layout and sample format part of the audio case. */
  method AppendAudioFormat(lib: MediaLibrary, enc: CodecCtx, showFmt: bool, buf: string, ghost segs: SegmentList)
    returns (buf': string)
    requires buf == Render(segs)
    ensures buf' == Render(AudioFormat(lib, enc, showFmt, segs))
  {
    buf' := buf;
    ghost var s := segs;
    // Sample rate
    if enc.sampleRate != 0 {
      buf' := buf' + (", " + Decimal(enc.sampleRate) + " Hz");
    }
    s := Emit(s, enc.sampleRate != 0, SampleRate(enc.sampleRate));
    assert buf' == Render(s);
    // Channel layout
    var channel := lib.channelLayoutString(enc.channels, enc.channelLayout);
    buf' := buf' + (", " + channel);
    s := Snoc(s, Channels(channel));
    // Sample format
    var bits := lib.streamBitsPerSample(enc);
    buf' := AppendSampleFormat(buf', s, enc, showFmt, bits);
  }

  /** The bitrate part of the video and audio cases, in kilobits per second. */
  method AppendBitrate(buf: string, ghost segs: SegmentList, bitrate: Int32) returns (buf': string)
    requires buf == Render(segs)
    ensures buf' == Render(Emit(segs, bitrate > 0, Bitrate(bitrate / 1000)))
  {
    buf' := buf;
    if bitrate > 0 {
      buf' := buf' + (", " + Decimal(bitrate / 1000) + " kb/s");
    }
  }

  /** The sample-format part of the audio case: "fp" for floating-point samples, "s" otherwise. */
  method AppendSampleFormat(buf: string, ghost segs: SegmentList, enc: CodecCtx, showFmt: bool, bits: Int32)
    returns (buf': string)
    requires buf == Render(segs)
    ensures buf' == Render(Emit(segs, showFmt && bits != 0, SampleBits(IsFloatFormat(enc.sampleFmt), bits)))
  {
    buf' := buf;
    if showFmt && bits != 0 {
      var prefix := ", s";
      if enc.sampleFmt == Flt || enc.sampleFmt == Dbl {
        prefix := ", fp";
      }
      buf' := buf' + (prefix + Decimal(bits));
    }
  }

  // ----- what the description promises -----

  /**
   * The segment of kind k in a stream's description, or None when there is
   * none: kind by kind, when `lavf_describe_stream` writes each piece and
   * what it writes, given the values p it computed first (Prepare).
   */
  function Slot(lib: MediaLibrary, st: StreamInfo, p: Prepared, k: Kind): Option<Segment> {
    var enc := st.codec;
    var t := enc.codecType;
    var shown := TypeTag(t).Some?;
    var bits := lib.streamBitsPerSample(enc);
    match k
    case KTag => TypeTag(t)
    case KLabel => if shown && Labelled(p) then Some(Head(p)) else None
    case KCodec => if shown then Some(Codec(p.codecName)) else None
    case KPixFmt =>
      if t == Video && enc.pixFmt != PixFmtNone then Some(PixelFormat(lib.pixFmtName(enc.pixFmt))) else None
    case KDims => if t == Video && enc.width != 0 then Some(Dimensions(enc.width, enc.height)) else None
    case KRate => if t == Audio && enc.sampleRate != 0 then Some(SampleRate(enc.sampleRate)) else None
    case KChannels =>
      if t == Audio then Some(Channels(lib.channelLayoutString(enc.channels, enc.channelLayout))) else None
    case KSampleBits =>
      if t == Audio && p.showSampleFmt && bits != 0
      then Some(SampleBits(IsFloatFormat(enc.sampleFmt), bits)) else None
    case KBitrate =>
      if (t == Video || t == Audio) && p.bitrate > 0 then Some(Bitrate(p.bitrate / 1000)) else None
    case KClose => if shown && Labelled(p) then Some(CloseParen) else None
    case KDefault => if t == Audio && p.isDefault then Some(DefaultFlag) else None
    case KSubFlags =>
      if t == Subtitle && (p.forced || p.hearingImpaired) then Some(SubtitleFlags(p.forced, p.hearingImpaired)) else None
    case KUnknown => if shown then None else Some(UnknownStream(st.index))
  }

  /** The label text, `title (`, `title [lang] (` or `sLanguage (`; empty without title and language. */
  function LabelText(p: Prepared): string {
    if Labelled(p) then SegmentText(Head(p)) else ""
  }

  lemma EmitKind(segs: SegmentList, cond: bool, seg: Segment, k: Kind)
    ensures SegmentOfKind(Emit(segs, cond, seg), k) ==
            if cond && KindOf(seg) == k then Some(seg) else SegmentOfKind(segs, k)
  {
  }

  lemma EmitOrdered(segs: SegmentList, cond: bool, seg: Segment)
    requires Increasing(segs) && LastRank(segs) < Rank(KindOf(seg))
    ensures Increasing(Emit(segs, cond, seg))
    ensures LastRank(Emit(segs, cond, seg)) <= Rank(KindOf(seg))
  {
  }

  lemma EmitExtends(shorter: SegmentList, segs: SegmentList, cond: bool, seg: Segment)
    requires IsPrefixList(shorter, segs)
    ensures IsPrefixList(shorter, Emit(segs, cond, seg))
  {
  }

  lemma OpeningKind(tag: Segment, p: Prepared, k: Kind)
    requires KindOf(tag) == KTag
    ensures SegmentOfKind(Opening(tag, p), k) ==
            if k.KTag? then Some(tag)
            else if k.KLabel? && Labelled(p) then Some(Head(p))
            else if k.KCodec? then Some(Codec(p.codecName))
            else None
  {
    EmitKind(Snoc(Nil, tag), Labelled(p), Head(p), k);
  }

  lemma VideoFormatKind(lib: MediaLibrary, enc: CodecCtx, segs: SegmentList, k: Kind)
    ensures SegmentOfKind(VideoFormat(lib, enc, segs), k) ==
            if k.KPixFmt? && enc.pixFmt != PixFmtNone then Some(PixelFormat(lib.pixFmtName(enc.pixFmt)))
            else if k.KDims? && enc.width != 0 then Some(Dimensions(enc.width, enc.height))
            else SegmentOfKind(segs, k)
  {
    var s1 := Emit(segs, enc.pixFmt != PixFmtNone, PixelFormat(lib.pixFmtName(enc.pixFmt)));
    EmitKind(segs, enc.pixFmt != PixFmtNone, PixelFormat(lib.pixFmtName(enc.pixFmt)), k);
    EmitKind(s1, enc.width != 0, Dimensions(enc.width, enc.height), k);
  }

  /** The bitrate and the closing parenthesis, which the video and audio cases both end with. */
  lemma TailKind(segs: SegmentList, p: Prepared, k: Kind)
    ensures var s := Emit(segs, p.bitrate > 0, Bitrate(p.bitrate / 1000));
            SegmentOfKind(Emit(s, Labelled(p), CloseParen), k) ==
            if k.KBitrate? && p.bitrate > 0 then Some(Bitrate(p.bitrate / 1000))
            else if k.KClose? && Labelled(p) then Some(CloseParen)
            else SegmentOfKind(segs, k)
  {
    var s := Emit(segs, p.bitrate > 0, Bitrate(p.bitrate / 1000));
    EmitKind(segs, p.bitrate > 0, Bitrate(p.bitrate / 1000), k);
    EmitKind(s, Labelled(p), CloseParen, k);
  }

  lemma VideoSlots(lib: MediaLibrary, st: StreamInfo, p: Prepared, k: Kind)
    requires st.codec.codecType == Video
    ensures SegmentOfKind(VideoSegments(lib, st.codec, p), k) == Slot(lib, st, p, k)
  {
    var s0 := Opening(VideoTag, p);
    OpeningKind(VideoTag, p, k);
    var s2 := VideoFormat(lib, st.codec, s0);
    VideoFormatKind(lib, st.codec, s0, k);
    TailKind(s2, p, k);
  }

  lemma AudioFormatKind(lib: MediaLibrary, enc: CodecCtx, showFmt: bool, segs: SegmentList, k: Kind)
    ensures var bits := lib.streamBitsPerSample(enc);
            SegmentOfKind(AudioFormat(lib, enc, showFmt, segs), k) ==
            if k.KRate? && enc.sampleRate != 0 then Some(SampleRate(enc.sampleRate))
            else if k.KChannels? then Some(Channels(lib.channelLayoutString(enc.channels, enc.channelLayout)))
            else if k.KSampleBits? && showFmt && bits != 0
            then Some(SampleBits(IsFloatFormat(enc.sampleFmt), bits))
            else SegmentOfKind(segs, k)
  {
    var bits := lib.streamBitsPerSample(enc);
    var s1 := Emit(segs, enc.sampleRate != 0, SampleRate(enc.sampleRate));
    EmitKind(segs, enc.sampleRate != 0, SampleRate(enc.sampleRate), k);
    var s2 := Snoc(s1, Channels(lib.channelLayoutString(enc.channels, enc.channelLayout)));
    EmitKind(s2, showFmt && bits != 0, SampleBits(IsFloatFormat(enc.sampleFmt), bits), k);
  }

  /** The bitrate, the closing parenthesis and the default flag, which the audio case ends with. */
  lemma AudioTailKind(segs: SegmentList, p: Prepared, k: Kind)
    ensures var s := Emit(Emit(segs, p.bitrate > 0, Bitrate(p.bitrate / 1000)), Labelled(p), CloseParen);
            SegmentOfKind(Emit(s, p.isDefault, DefaultFlag), k) ==
            if k.KBitrate? && p.bitrate > 0 then Some(Bitrate(p.bitrate / 1000))
            else if k.KClose? && Labelled(p) then Some(CloseParen)
            else if k.KDefault? && p.isDefault then Some(DefaultFlag)
            else SegmentOfKind(segs, k)
  {
    var s := Emit(Emit(segs, p.bitrate > 0, Bitrate(p.bitrate / 1000)), Labelled(p), CloseParen);
    TailKind(segs, p, k);
    EmitKind(s, p.isDefault, DefaultFlag, k);
  }

  lemma AudioSlots(lib: MediaLibrary, st: StreamInfo, p: Prepared, k: Kind)
    requires st.codec.codecType == Audio
    ensures SegmentOfKind(AudioSegments(lib, st.codec, p), k) == Slot(lib, st, p, k)
  {
    var s0 := Opening(AudioTag, p);
    OpeningKind(AudioTag, p, k);
    AudioFormatKind(lib, st.codec, p.showSampleFmt, s0, k);
    AudioTailKind(AudioFormat(lib, st.codec, p.showSampleFmt, s0), p, k);
  }

  /** The closing parenthesis and the flags, which the subtitle case ends with. */
  lemma SubtitleTailKind(segs: SegmentList, p: Prepared, k: Kind)
    ensures var s := Emit(segs, Labelled(p), CloseParen);
            SegmentOfKind(Emit(s, p.forced || p.hearingImpaired, SubtitleFlags(p.forced, p.hearingImpaired)), k) ==
            if k.KClose? && Labelled(p) then Some(CloseParen)
            else if k.KSubFlags? && (p.forced || p.hearingImpaired) then Some(SubtitleFlags(p.forced, p.hearingImpaired))
            else SegmentOfKind(segs, k)
  {
    var s := Emit(segs, Labelled(p), CloseParen);
    EmitKind(segs, Labelled(p), CloseParen, k);
    EmitKind(s, p.forced || p.hearingImpaired, SubtitleFlags(p.forced, p.hearingImpaired), k);
  }

  lemma SubtitleSlots(lib: MediaLibrary, st: StreamInfo, p: Prepared, k: Kind)
    requires st.codec.codecType == Subtitle
    ensures SegmentOfKind(SubtitleSegments(p), k) == Slot(lib, st, p, k)
  {
    OpeningKind(SubtitleTag, p, k);
    SubtitleTailKind(Opening(SubtitleTag, p), p, k);
  }

  lemma SlotsFor(lib: MediaLibrary, st: StreamInfo, p: Prepared, k: Kind)
    ensures SegmentOfKind(SegmentsFor(lib, st, p), k) == Slot(lib, st, p, k)
  {
    match st.codec.codecType
    case Video => VideoSlots(lib, st, p, k);
    case Audio => AudioSlots(lib, st, p, k);
    case Subtitle => SubtitleSlots(lib, st, p, k);
    case _ =>
  }

  /** Every kind of segment is present exactly under the condition Slot gives, with the contents it gives. */
  lemma DescriptionSlots(lib: MediaLibrary, st: StreamInfo, k: Kind)
    ensures SegmentOfKind(Segments(lib, st), k) == Slot(lib, st, Prepare(lib, st), k)
  {
    SlotsFor(lib, st, Prepare(lib, st), k);
  }

  lemma OpeningOrdered(tag: Segment, p: Prepared)
    requires KindOf(tag) == KTag
    ensures Increasing(Opening(tag, p)) && LastRank(Opening(tag, p)) == Rank(KCodec)
  {
    EmitOrdered(Snoc(Nil, tag), Labelled(p), Head(p));
  }

  lemma VideoFormatOrdered(lib: MediaLibrary, enc: CodecCtx, segs: SegmentList)
    requires Increasing(segs) && LastRank(segs) <= Rank(KCodec)
    ensures Increasing(VideoFormat(lib, enc, segs)) && LastRank(VideoFormat(lib, enc, segs)) <= Rank(KDims)
  {
    var s1 := Emit(segs, enc.pixFmt != PixFmtNone, PixelFormat(lib.pixFmtName(enc.pixFmt)));
    EmitOrdered(segs, enc.pixFmt != PixFmtNone, PixelFormat(lib.pixFmtName(enc.pixFmt)));
    EmitOrdered(s1, enc.width != 0, Dimensions(enc.width, enc.height));
  }

  lemma TailOrdered(segs: SegmentList, p: Prepared)
    requires Increasing(segs) && LastRank(segs) <= Rank(KSampleBits)
    ensures var s := Emit(Emit(segs, p.bitrate > 0, Bitrate(p.bitrate / 1000)), Labelled(p), CloseParen);
            Increasing(s) && LastRank(s) <= Rank(KClose)
  {
    var s := Emit(segs, p.bitrate > 0, Bitrate(p.bitrate / 1000));
    EmitOrdered(segs, p.bitrate > 0, Bitrate(p.bitrate / 1000));
    EmitOrdered(s, Labelled(p), CloseParen);
  }

  lemma VideoOrdered(lib: MediaLibrary, enc: CodecCtx, p: Prepared)
    ensures Increasing(VideoSegments(lib, enc, p))
  {
    var s0 := Opening(VideoTag, p);
    OpeningOrdered(VideoTag, p);
    VideoFormatOrdered(lib, enc, s0);
    TailOrdered(VideoFormat(lib, enc, s0), p);
  }

  lemma AudioFormatOrdered(lib: MediaLibrary, enc: CodecCtx, showFmt: bool, segs: SegmentList)
    requires Increasing(segs) && LastRank(segs) <= Rank(KCodec)
    ensures Increasing(AudioFormat(lib, enc, showFmt, segs))
    ensures LastRank(AudioFormat(lib, enc, showFmt, segs)) <= Rank(KSampleBits)
  {
    var bits := lib.streamBitsPerSample(enc);
    var s1 := Emit(segs, enc.sampleRate != 0, SampleRate(enc.sampleRate));
    EmitOrdered(segs, enc.sampleRate != 0, SampleRate(enc.sampleRate));
    var s2 := Emit(s1, true, Channels(lib.channelLayoutString(enc.channels, enc.channelLayout)));
    EmitOrdered(s1, true, Channels(lib.channelLayoutString(enc.channels, enc.channelLayout)));
    EmitOrdered(s2, showFmt && bits != 0, SampleBits(IsFloatFormat(enc.sampleFmt), bits));
  }

  lemma AudioOrdered(lib: MediaLibrary, enc: CodecCtx, p: Prepared)
    ensures Increasing(AudioSegments(lib, enc, p))
  {
    var s0 := Opening(AudioTag, p);
    OpeningOrdered(AudioTag, p);
    var s3 := AudioFormat(lib, enc, p.showSampleFmt, s0);
    AudioFormatOrdered(lib, enc, p.showSampleFmt, s0);
    var s5 := Emit(Emit(s3, p.bitrate > 0, Bitrate(p.bitrate / 1000)), Labelled(p), CloseParen);
    TailOrdered(s3, p);
    EmitOrdered(s5, p.isDefault, DefaultFlag);
  }

  lemma SubtitleOrdered(p: Prepared)
    ensures Increasing(SubtitleSegments(p))
  {
    var s0 := Opening(SubtitleTag, p);
    OpeningOrdered(SubtitleTag, p);
    var s1 := Emit(s0, Labelled(p), CloseParen);
    EmitOrdered(s0, Labelled(p), CloseParen);
    EmitOrdered(s1, p.forced || p.hearingImpaired, SubtitleFlags(p.forced, p.hearingImpaired));
  }

  lemma OrderedFor(lib: MediaLibrary, st: StreamInfo, p: Prepared)
    ensures Increasing(SegmentsFor(lib, st, p))
  {
    match st.codec.codecType
    case Video => VideoOrdered(lib, st.codec, p);
    case Audio => AudioOrdered(lib, st.codec, p);
    case Subtitle => SubtitleOrdered(p);
    case _ =>
  }

  /** The segments come in Rank order, each kind at most once. */
  lemma DescriptionOrdered(lib: MediaLibrary, st: StreamInfo)
    ensures Increasing(Segments(lib, st))
  {
    OrderedFor(lib, st, Prepare(lib, st));
  }

  /** A segment found in a list has the kind asked for and a rank no higher than the last one's. */
  lemma {:induction false} FoundNotAfterLast(segs: SegmentList, k: Kind)
    requires Increasing(segs) && SegmentOfKind(segs, k).Some?
    ensures KindOf(SegmentOfKind(segs, k).value) == k
    ensures Rank(k) <= LastRank(segs)
    decreases segs
  {
    if KindOf(segs.last) != k {
      FoundNotAfterLast(segs.init, k);
      assert LastRank(segs.init) < LastRank(segs);
    }
  }

  /** No kind ranked after the last segment is present. */
  lemma NoneAfterLast(segs: SegmentList, k: Kind)
    requires Increasing(segs) && LastRank(segs) < Rank(k)
    ensures SegmentOfKind(segs, k) == None
  {
    if SegmentOfKind(segs, k).Some? {
      FoundNotAfterLast(segs, k);
    }
  }

  lemma RankInjective(a: Kind, b: Kind)
    requires Rank(a) == Rank(b)
    ensures a == b
  {
  }

  /**
   * An increasing list is determined by which segment it has of each kind,
   * so Slot and DescriptionOrdered together fix the description completely.
   */
  lemma {:induction false} SlotsDetermine(a: SegmentList, b: SegmentList)
    requires Increasing(a) && Increasing(b)
    requires forall k :: SegmentOfKind(a, k) == SegmentOfKind(b, k)
    ensures a == b
    decreases a
  {
    if b.Snoc? {
      assert SegmentOfKind(a, KindOf(b.last)) == Some(b.last);
    }
    if a.Snoc? {
      var ka := KindOf(a.last);
      assert SegmentOfKind(b, ka) == Some(a.last);
      FoundNotAfterLast(b, ka);
      var kb := KindOf(b.last);
      assert SegmentOfKind(a, kb) == Some(b.last);
      FoundNotAfterLast(a, kb);
      RankInjective(ka, kb);
      forall k
        ensures SegmentOfKind(a.init, k) == SegmentOfKind(b.init, k)
      {
        if k == ka {
          NoneAfterLast(a.init, k);
          NoneAfterLast(b.init, k);
        } else {
          assert SegmentOfKind(a, k) == SegmentOfKind(a.init, k);
        }
      }
      SlotsDetermine(a.init, b.init);
    }
  }

  /** The description is the one increasing list with the segments Slot gives. */
  lemma DescriptionIsSlots(lib: MediaLibrary, st: StreamInfo, segs: SegmentList)
    requires Increasing(segs)
    requires forall k :: SegmentOfKind(segs, k) == Slot(lib, st, Prepare(lib, st), k)
    ensures segs == Segments(lib, st)
  {
    DescriptionOrdered(lib, st);
    forall k
      ensures SegmentOfKind(segs, k) == SegmentOfKind(Segments(lib, st), k)
    {
      DescriptionSlots(lib, st, k);
    }
    SlotsDetermine(segs, Segments(lib, st));
  }

  /** Every opening parenthesis is closed: the label and the closing parenthesis come together, in that order. */
  lemma ParenthesesBalanced(lib: MediaLibrary, st: StreamInfo)
    ensures SegmentOfKind(Segments(lib, st), KLabel).Some? <==> SegmentOfKind(Segments(lib, st), KClose).Some?
  {
    DescriptionSlots(lib, st, KLabel);
    DescriptionSlots(lib, st, KClose);
  }

  // ----- how the description string begins and ends -----

  /** A list's rendering is a prefix of the rendering of any list that extends it. */
  lemma {:induction false} RenderPrefix(shorter: SegmentList, longer: SegmentList)
    requires IsPrefixList(shorter, longer)
    ensures Render(shorter) <= Render(longer)
    decreases longer
  {
    if shorter != longer {
      RenderPrefix(shorter, longer.init);
      assert Render(longer) == Render(longer.init) + SegmentText(longer.last);
    }
  }

  /** The opening renders as the tag, the label text and the codec name. */
  lemma OpeningText(tag: Segment, p: Prepared)
    ensures Render(Opening(tag, p)) == SegmentText(tag) + LabelText(p) + p.codecName
  {
    assert Render(Snoc(Nil, tag)) == SegmentText(tag);
  }

  lemma VideoExtendsOpening(lib: MediaLibrary, enc: CodecCtx, p: Prepared)
    ensures IsPrefixList(Opening(VideoTag, p), VideoSegments(lib, enc, p))
  {
    var s0 := Opening(VideoTag, p);
    var s1 := Emit(s0, enc.pixFmt != PixFmtNone, PixelFormat(lib.pixFmtName(enc.pixFmt)));
    EmitExtends(s0, s0, enc.pixFmt != PixFmtNone, PixelFormat(lib.pixFmtName(enc.pixFmt)));
    var s2 := Emit(s1, enc.width != 0, Dimensions(enc.width, enc.height));
    EmitExtends(s0, s1, enc.width != 0, Dimensions(enc.width, enc.height));
    var s3 := Emit(s2, p.bitrate > 0, Bitrate(p.bitrate / 1000));
    EmitExtends(s0, s2, p.bitrate > 0, Bitrate(p.bitrate / 1000));
    EmitExtends(s0, s3, Labelled(p), CloseParen);
  }

  lemma AudioExtendsOpening(lib: MediaLibrary, enc: CodecCtx, p: Prepared)
    ensures IsPrefixList(Opening(AudioTag, p), AudioSegments(lib, enc, p))
  {
    var bits := lib.streamBitsPerSample(enc);
    var s0 := Opening(AudioTag, p);
    var s1 := Emit(s0, enc.sampleRate != 0, SampleRate(enc.sampleRate));
    EmitExtends(s0, s0, enc.sampleRate != 0, SampleRate(enc.sampleRate));
    var s2 := Emit(s1, true, Channels(lib.channelLayoutString(enc.channels, enc.channelLayout)));
    EmitExtends(s0, s1, true, Channels(lib.channelLayoutString(enc.channels, enc.channelLayout)));
    var s3 := Emit(s2, p.showSampleFmt && bits != 0, SampleBits(IsFloatFormat(enc.sampleFmt), bits));
    EmitExtends(s0, s2, p.showSampleFmt && bits != 0, SampleBits(IsFloatFormat(enc.sampleFmt), bits));
    var s4 := Emit(s3, p.bitrate > 0, Bitrate(p.bitrate / 1000));
    EmitExtends(s0, s3, p.bitrate > 0, Bitrate(p.bitrate / 1000));
    var s5 := Emit(s4, Labelled(p), CloseParen);
    EmitExtends(s0, s4, Labelled(p), CloseParen);
    EmitExtends(s0, s5, p.isDefault, DefaultFlag);
  }

  lemma SubtitleExtendsOpening(p: Prepared)
    ensures IsPrefixList(Opening(SubtitleTag, p), SubtitleSegments(p))
  {
    var s0 := Opening(SubtitleTag, p);
    var s1 := Emit(s0, Labelled(p), CloseParen);
    EmitExtends(s0, s0, Labelled(p), CloseParen);
    EmitExtends(s0, s1, p.forced || p.hearingImpaired, SubtitleFlags(p.forced, p.hearingImpaired));
  }

  /** A list that extends the opening renders starting with the tag, the label text and the codec name. */
  lemma OpeningPrefix(tag: Segment, p: Prepared, longer: SegmentList)
    requires IsPrefixList(Opening(tag, p), longer)
    ensures SegmentText(tag) + LabelText(p) + p.codecName <= Render(longer)
  {
    OpeningText(tag, p);
    RenderPrefix(Opening(tag, p), longer);
  }

  lemma BeginsFor(lib: MediaLibrary, st: StreamInfo, p: Prepared)
    ensures var t := st.codec.codecType;
            && (TypeTag(t).Some? ==>
                  SegmentText(TypeTag(t).value) + LabelText(p) + p.codecName <= Render(SegmentsFor(lib, st, p)))
            && (TypeTag(t).None? ==> Render(SegmentsFor(lib, st, p)) == "Unknown: Stream #" + Decimal(st.index))
  {
    match st.codec.codecType
    case Video =>
      VideoExtendsOpening(lib, st.codec, p);
      OpeningPrefix(VideoTag, p, VideoSegments(lib, st.codec, p));
    case Audio =>
      AudioExtendsOpening(lib, st.codec, p);
      OpeningPrefix(AudioTag, p, AudioSegments(lib, st.codec, p));
    case Subtitle =>
      SubtitleExtendsOpening(p);
      OpeningPrefix(SubtitleTag, p, SubtitleSegments(p));
    case _ =>
      assert Render(Snoc(Nil, UnknownStream(st.index))) == "" + SegmentText(UnknownStream(st.index));
  }

  /**
   * A described stream begins with its type tag ("V: ", "A: " or "S: "), the
   * title and language label, then the codec name; any other stream is
   * described as "Unknown: Stream #" and its index, and nothing else.
   */
  lemma DescriptionBegins(lib: MediaLibrary, st: StreamInfo)
    ensures var t := st.codec.codecType;
            && (TypeTag(t).Some? ==>
                  SegmentText(TypeTag(t).value) + LabelText(Prepare(lib, st)) + CodecName(lib, st.codec)
                  <= Describe(lib, st))
            && (TypeTag(t).None? ==> Describe(lib, st) == "Unknown: Stream #" + Decimal(st.index))
  {
    BeginsFor(lib, st, Prepare(lib, st));
  }

  /**
   * The label the title and language give: `title [lang] (` with both,
   * `title (` with a title only, the language's display name and ` (` with a
   * language only, nothing with neither.
   */
  lemma LabelTextCases(lib: MediaLibrary, st: StreamInfo)
    ensures var lang := GetStreamLanguage(st);
            var title := st.titleTag;
            LabelText(Prepare(lib, st)) ==
              if title.Some? && lang.Some? then title.value + " [" + lang.value + "] ("
              else if title.Some? then title.value + " ("
              else if lang.Some? then DisplayLanguage(lib, lang.value) + " ("
              else ""
  {
  }

  lemma EndsWithSuffix(r: string, x: string)
    ensures EndsWith(r + x, x)
  {
    assert (r + x)[|r|..] == x;
  }

  /** A closing parenthesis ends the rendering with ")". */
  lemma CloseEnds(segs: SegmentList)
    ensures EndsWith(Render(Snoc(segs, CloseParen)), ")")
  {
    EndsWithSuffix(Render(segs), ")");
  }

  /** A default flag ends the rendering with " [default]". */
  lemma DefaultEnds(segs: SegmentList)
    ensures EndsWith(Render(Snoc(segs, DefaultFlag)), " [default]")
  {
    EndsWithSuffix(Render(segs), " [default]");
  }

  /** A closing parenthesis then a default flag end the rendering with ") [default]". */
  lemma CloseDefaultEnds(segs: SegmentList)
    ensures EndsWith(Render(Snoc(Snoc(segs, CloseParen), DefaultFlag)), ") [default]")
  {
    var r := Render(segs);
    assert Render(Snoc(Snoc(segs, CloseParen), DefaultFlag)) == r + ") [default]";
    EndsWithSuffix(r, ") [default]");
  }

  /** Subtitle flags end the rendering with their text. */
  lemma FlagsEnd(segs: SegmentList, forced: bool, hearingImpaired: bool)
    ensures EndsWith(Render(Snoc(segs, SubtitleFlags(forced, hearingImpaired))), SubtitleFlagsText(forced, hearingImpaired))
  {
    EndsWithSuffix(Render(segs), SubtitleFlagsText(forced, hearingImpaired));
  }

  lemma AudioEnds(lib: MediaLibrary, enc: CodecCtx, p: Prepared)
    ensures var d := Render(AudioSegments(lib, enc, p));
            && (p.isDefault ==> EndsWith(d, if Labelled(p) then ") [default]" else " [default]"))
            && (!p.isDefault && Labelled(p) ==> EndsWith(d, ")"))
  {
    var s := Emit(AudioFormat(lib, enc, p.showSampleFmt, Opening(AudioTag, p)), p.bitrate > 0, Bitrate(p.bitrate / 1000));
    if p.isDefault && Labelled(p) {
      CloseDefaultEnds(s);
    } else if p.isDefault {
      DefaultEnds(s);
    } else if Labelled(p) {
      CloseEnds(s);
    }
  }

  lemma SubtitleEnds(p: Prepared)
    ensures var d := Render(SubtitleSegments(p));
            && (p.forced || p.hearingImpaired ==> EndsWith(d, SubtitleFlagsText(p.forced, p.hearingImpaired)))
            && (!(p.forced || p.hearingImpaired) && Labelled(p) ==> EndsWith(d, ")"))
  {
    var s := Opening(SubtitleTag, p);
    if p.forced || p.hearingImpaired {
      FlagsEnd(Emit(s, Labelled(p), CloseParen), p.forced, p.hearingImpaired);
    } else if Labelled(p) {
      CloseEnds(s);
    }
  }

  lemma VideoEnds(lib: MediaLibrary, enc: CodecCtx, p: Prepared)
    ensures Labelled(p) ==> EndsWith(Render(VideoSegments(lib, enc, p)), ")")
  {
    if Labelled(p) {
      CloseEnds(Emit(VideoFormat(lib, enc, Opening(VideoTag, p)), p.bitrate > 0, Bitrate(p.bitrate / 1000)));
    }
  }

  lemma EndsFor(lib: MediaLibrary, st: StreamInfo, p: Prepared)
    ensures var t := st.codec.codecType;
            var d := Render(SegmentsFor(lib, st, p));
            var flagged := (t == Audio && p.isDefault) || (t == Subtitle && (p.forced || p.hearingImpaired));
            && (t == Audio && p.isDefault ==> EndsWith(d, if Labelled(p) then ") [default]" else " [default]"))
            && (t == Subtitle && (p.forced || p.hearingImpaired) ==>
                  EndsWith(d, SubtitleFlagsText(p.forced, p.hearingImpaired)))
            && (TypeTag(t).Some? && Labelled(p) && !flagged ==> EndsWith(d, ")"))
  {
    match st.codec.codecType
    case Video => VideoEnds(lib, st.codec, p);
    case Audio => AudioEnds(lib, st.codec, p);
    case Subtitle => SubtitleEnds(p);
    case _ =>
  }

  /**
   * The description ends with " [default]" for a default audio stream (after
   * the closing parenthesis when there is a label), with the bracketed flags
   * for a forced or hearing-impaired subtitle stream, and otherwise with the
   * closing parenthesis whenever a label opened one.
   */
  lemma DescriptionEnds(lib: MediaLibrary, st: StreamInfo)
    ensures var p := Prepare(lib, st);
            var t := st.codec.codecType;
            var d := Describe(lib, st);
            var flagged := (t == Audio && p.isDefault) || (t == Subtitle && (p.forced || p.hearingImpaired));
            && (t == Audio && p.isDefault ==> EndsWith(d, if Labelled(p) then ") [default]" else " [default]"))
            && (t == Subtitle && (p.forced || p.hearingImpaired) ==>
                  EndsWith(d, SubtitleFlagsText(p.forced, p.hearingImpaired)))
            && (TypeTag(t).Some? && Labelled(p) && !flagged ==> EndsWith(d, ")"))
  {
    EndsFor(lib, st, Prepare(lib, st));
  }
}
