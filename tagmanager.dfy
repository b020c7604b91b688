// RGTagManager: from the container name FFmpeg reports (and, for Ogg, the
// codec) to the per-format tag functions, and what the three entry points
// return when no format applies.
module TagManager {
  import opened Common
  import opened Scan
  import opened TagKeys
  import opened TagStore

  /** The per-format tag functions a file can be routed to. */
  datatype Target =
    | Mp3File | FlacFile | OggOpus | OggVorbis | OggFlac | OggSpeex
    | Mp4File | AsfFile | WavFile | AiffFile | WavPackFile | ApeFile

  /** printFormatError, printCodecError and printTypeError. */
  datatype Failure = FormatError | CodecError | TypeError

  datatype Routed = Routed(target: Target) | Unrouted(failure: Failure)

  /** The switch of writeRGTags, clearRGTags and hasRGTags on a container id and a codec. */
  function Route(id: int, codec: CodecId): Routed
  {
    if id == -1 then Unrouted(FormatError)
    else if id == ContainerMp3 then Routed(Mp3File)
    else if id == ContainerFlac then Routed(FlacFile)
    else if id == ContainerOgg then
      match codec
      case Opus => Routed(OggOpus)
      case Vorbis => Routed(OggVorbis)
      case Flac => Routed(OggFlac)
      case Speex => Routed(OggSpeex)
      case _ => Unrouted(CodecError)
    else if id == ContainerMp4 then Routed(Mp4File)
    else if id == ContainerAsf then Routed(AsfFile)
    else if id == ContainerWav then Routed(WavFile)
    else if id == ContainerAiff then Routed(AiffFile)
    else if id == ContainerWv then Routed(WavPackFile)
    else if id == ContainerApe then Routed(ApeFile)
    else Unrouted(TypeError)
  }

  function Dispatch(format: string, codec: CodecId): Routed
  {
    Route(ContainerId(format), codec)
  }

  predicate OggCodec(codec: CodecId)
  {
    codec == Opus || codec == Vorbis || codec == Flac || codec == Speex
  }

  /**
   * A file is routed unless its container name is unknown, or it is Ogg
   * with a codec other than Opus, Vorbis, FLAC and Speex; the type error
   * of the default branch cannot happen.
   */
  lemma DispatchFails(format: string, codec: CodecId)
    ensures Dispatch(format, codec).Unrouted? <==>
      ContainerId(format) == -1 || (ContainerId(format) == ContainerOgg && !OggCodec(codec))
    ensures Dispatch(format, codec) != Unrouted(TypeError)
    ensures Dispatch(format, codec) == Unrouted(FormatError) <==> ContainerId(format) == -1
  {
    ContainerIdSpec(format);
  }

  /** Every container id selects the target whose name sits at that index of the table. */
  lemma DispatchTable(codec: CodecId)
    ensures Dispatch("mp3", codec) == Routed(Mp3File)
    ensures Dispatch("flac", codec) == Routed(FlacFile)
    ensures Dispatch("ogg", Opus) == Routed(OggOpus) && Dispatch("ogg", Vorbis) == Routed(OggVorbis)
    ensures Dispatch("ogg", Flac) == Routed(OggFlac) && Dispatch("ogg", Speex) == Routed(OggSpeex)
    ensures !OggCodec(codec) ==> Dispatch("ogg", codec) == Unrouted(CodecError)
    ensures Dispatch("asf", codec) == Routed(AsfFile)
    ensures Dispatch("wav", codec) == Routed(WavFile)
    ensures Dispatch("wv", codec) == Routed(WavPackFile)
    ensures Dispatch("aiff", codec) == Routed(AiffFile)
    ensures Dispatch("ape", codec) == Routed(ApeFile)
    ensures Dispatch("", codec) == Unrouted(FormatError)
  {
    Mp3Name();
    FlacName();
    OggName();
    AsfName();
    WavName();
    WavPackName();
    AiffName();
    ApeName();
    FragmentsResolve();
  }

  /** Each member of FFmpeg's MP4 family goes to the MP4 functions, whatever the codec. */
  lemma DispatchMp4Family(format: string, codec: CodecId)
    requires format in ["mov", "mp4", "m4a", "3gp", "3g2", "mj2", "mov,mp4,m4a,3gp,3g2,mj2"]
    ensures Dispatch(format, codec) == Routed(Mp4File)
  {
    Mp4Family(format);
  }

  /** The tag a target keeps its ReplayGain values in. */
  datatype TagKind = Id3Frames | KeyValue(backend: Backend) | OpusComment

  function KindOf(t: Target): TagKind
  {
    match t
    case Mp3File => Id3Frames
    case WavFile => Id3Frames
    case AiffFile => Id3Frames
    case FlacFile => KeyValue(Xiph)
    case OggVorbis => KeyValue(Xiph)
    case OggFlac => KeyValue(Xiph)
    case OggSpeex => KeyValue(Xiph)
    case OggOpus => OpusComment
    case Mp4File => KeyValue(Mp4)
    case AsfFile => KeyValue(Asf)
    case WavPackFile => KeyValue(Ape)
    case ApeFile => KeyValue(Ape)
  }

  /**
   * The save flag a writer starts from: true for MP3, FLAC, WavPack and
   * APE files that lack the tag (it must be created), false otherwise.
   */
  function SaveStart(t: Target, hadTag: bool): bool
  {
    match t
    case Mp3File => !hadTag
    case FlacFile => !hadTag
    case WavPackFile => !hadTag
    case ApeFile => !hadTag
    case _ => false
  }

  /** Lower-case keys (-L) reach the file only for the ID3, ASF and MP4 writers. */
  lemma LowercaseReach(t: Target, tag: RgTag)
    ensures KindOf(t).KeyValue? && KindOf(t).backend in {Xiph, Ape} ==>
      KeyFor(KindOf(t).backend, true, tag) == UpperName(tag)
    ensures KindOf(t).KeyValue? && KindOf(t).backend == Asf ==>
      KeyFor(Asf, true, tag) == LowerName(tag)
    ensures !SaveStart(t, true)
  {
  }

  /** The container lookup finds the name, and for Ogg the codec is one of the four handled. */
  predicate Routable(format: string, codec: CodecId)
  {
    ContainerId(format) != -1 && (ContainerId(format) == ContainerOgg ==> OggCodec(codec))
  }

  /**
   * writeRGTags and clearRGTags: rc is false unless the container lookup
   * succeeds (with a handled codec for Ogg); then it is the result of the
   * format function the file is routed to.
   */
  function ManagerResult(format: string, codec: CodecId, run: Target -> bool): (rc: bool)
    ensures rc ==> Routable(format, codec)
    ensures Routable(format, codec) ==>
      Dispatch(format, codec).Routed? && rc == run(Dispatch(format, codec).target)
  {
    DispatchFails(format, codec);
    match Dispatch(format, codec)
    case Routed(t) => run(t)
    case Unrouted(_) => false
  }

  /**
   * hasRGTags: ok is initFile's result, cleared unless the container lookup
   * succeeds (with a handled codec for Ogg); rc is the routed presence check.
   */
  function HasRGTags(format: string, codec: CodecId, initOk: bool, present: Target -> bool): (res: (bool, bool))
    ensures res.1 <==> initOk && Routable(format, codec)
    ensures res.0 ==> Routable(format, codec)
    ensures Routable(format, codec) ==>
      Dispatch(format, codec).Routed? && (res.0 <==> present(Dispatch(format, codec).target))
  {
    DispatchFails(format, codec);
    match Dispatch(format, codec)
    case Routed(t) => (present(t), initOk)
    case Unrouted(_) => (false, false)
  }

  /** A file whose container or Ogg codec is unknown is never written, cleared or reported as tagged, and is not ok. */
  lemma UnknownFailsClosed(format: string, codec: CodecId, run: Target -> bool, initOk: bool, present: Target -> bool)
    requires ContainerId(format) == -1 || (ContainerId(format) == ContainerOgg && !OggCodec(codec))
    ensures !ManagerResult(format, codec, run)
    ensures HasRGTags(format, codec, initOk, present) == (false, false)
  {
    DispatchFails(format, codec);
  }
}
