/**
 * The data the stream-description helpers read: the codec context and the
 * stream of the demuxing library, and the library routines they call, each
 * kept as an uninterpreted input.
 */
module LavfTypes {
  import opened Wrappers

  /** A C `int`. */
  type Int32 = x: int | -0x8000_0000 <= x < 0x8000_0000

  /** A C `unsigned int`. */
  type UInt32 = x: int | 0 <= x < 0x1_0000_0000

  /** Two's-complement wrap-around of an `int` computation to 32 bits. */
  function WrapInt32(x: int): (r: Int32)
    ensures (r - x) % 0x1_0000_0000 == 0
    ensures -0x8000_0000 <= x < 0x8000_0000 ==> r == x
  {
    (x + 0x8000_0000) % 0x1_0000_0000 - 0x8000_0000
  }

  /** AVMEDIA_TYPE_*. */
  datatype MediaType = Unknown | Video | Audio | Data | Subtitle | Attachment

  /**
   * CODEC_ID_*: the identifiers this code names, and CodecNumber(n) for every
   * other identifier by its numeric value. The named identifiers all lie
   * outside the PCM block 0x10000..0x11FFF, and CodecNumber(n) never carries
   * the value of a named one.
   */
  datatype CodecId =
    | H264 | Dts | Vc1 | Mpeg2Video
    | TrueHd | Ac3 | Eac3 | AacLatm | Mlp | Flac | WmaLossless | WavPack | Mp4Als | Alac
    | Text | Srt | HdmvPgsSubtitle | DvdSubtitle | DvbSubtitle | Ssa | Xsub
    | CodecNumber(n: int)

  /** AV_SAMPLE_FMT_*. */
  datatype SampleFormat = SampleFmtNone | U8 | S16 | S32 | Flt | Dbl

  /** PIX_FMT_NONE. */
  const PixFmtNone: int := -1

  /** FF_LEVEL_UNKNOWN. */
  const LevelUnknown: int := -99

  /** AV_DISPOSITION_* bits. */
  const DispositionDefault: bv32 := 0x0001
  const DispositionForced: bv32 := 0x0040
  const DispositionHearingImpaired: bv32 := 0x0080

  /** The fields of AVCodecContext this code reads. */
  datatype CodecCtx = CodecCtx(
    codecType: MediaType,
    codecId: CodecId,
    /** For subtitle streams the demuxer keeps the real codec id behind `opaque`. */
    opaqueCodecId: CodecId,
    profile: Int32,
    level: Int32,
    /** `codec_name`, up to its terminating NUL. */
    codecName: string,
    codecTag: UInt32,
    bitRate: Int32,
    sampleRate: Int32,
    channels: Int32,
    channelLayout: int,
    sampleFmt: SampleFormat,
    pixFmt: int,
    width: Int32,
    height: Int32)

  /** The fields of AVStream this code reads, with its metadata lookups already done. */
  datatype StreamInfo = StreamInfo(
    index: Int32,
    codec: CodecCtx,
    /** `av_metadata_get(metadata, "language")`, or None when there is no such tag. */
    languageTag: Option<string>,
    /** The legacy `language` field. */
    legacyLanguage: string,
    /** `av_metadata_get(metadata, "title")`, or None when there is no such tag. */
    titleTag: Option<string>,
    disposition: bv32)

  /** What `avcodec_find_decoder` returns: the decoder's name and its profile names. */
  datatype Decoder = Decoder(
    name: string,
    /** `av_get_profile_name(p, profile)`; None for an unknown profile. */
    profileName: int -> Option<string>)

  /** The library routines called, as uninterpreted total functions. */
  datatype MediaLibrary = MediaLibrary(
    /** `avcodec_find_decoder`; None when no decoder exists. */
    findDecoder: CodecId -> Option<Decoder>,
    /** `av_get_bits_per_sample(codec_id)`. */
    codecBitsPerSample: CodecId -> Int32,
    /** `get_bits_per_sample(enc)`, defined outside this file. */
    streamBitsPerSample: CodecCtx -> Int32,
    /** `avcodec_get_pix_fmt_name`. */
    pixFmtName: int -> string,
    /** `av_get_channel_layout_string(buf, 32, channels, layout)`. */
    channelLayoutString: (int, int) -> string,
    /** `av_get_codec_tag_string(buf, 32, tag)`. */
    codecTagString: UInt32 -> string,
    /** `ProbeLangForLanguage`: a language's display name, or "" when unknown. */
    probeLanguage: string -> string)

  predicate HasFlag(disposition: bv32, flag: bv32) {
    disposition & flag != 0
  }
}
