/**
 * The conversion layer of the UserNotifications binding: a `Notification`
 * and its parts (sound, attachments, trigger, category, actions) become the
 * framework's native objects.
 *
 * Each native object is a record of "which setter received which value":
 * a field is `None` when its setter was never called.  The framework's
 * attachment factory, which may refuse a file, is the `framework` parameter:
 * it returns the refusal's description, or `None` when it accepts.
 */
module UnNotification {
  import opened Wrappers
  import opened AppleOs

  /** An `f32` (volume, relevance score, rectangle coordinate) kept as its bit pattern. */
  datatype F32 = F32(bits: bv32)

  /** `std::time::Duration` */
  datatype Duration = Duration(secs: nat, subsecNanos: nat)

  /** A parsed URL, kept as its serialisation. */
  type Url = string

  // ---------------------------------------------------------------- sounds

  datatype Sound =
    | Default
    | Named(name: string)
    | DefaultCriticalSound
    | DefaultCriticalSoundWithVolume(volume: F32)
    | CriticalSoundNamed(name: string)
    | CriticalSoundNamedWithVolume(name: string, volume: F32)
    | DefaultRingtone
    | RingtoneSoundNamed(name: string)

  /** The `UNNotificationSound` factory that produced a native sound. */
  datatype NativeSound =
    | UNDefaultSound
    | UNSoundNamed(name: string)
    | UNDefaultCriticalSound
    | UNDefaultCriticalSoundWithVolume(volume: F32)
    | UNCriticalSoundNamed(name: string)
    | UNCriticalSoundNamedWithVolume(name: string, volume: F32)
    | UNDefaultRingtoneSound
    | UNRingtoneSoundNamed(name: string)

  const CriticalSoundGate: seq<Clause> :=
    [AtLeast(IOS, 12, 0), AtLeast(MacOS, 10, 14), AtLeast(MacCatalyst, 13, 1),
     AtLeast(VisionOS, 1, 0), AtLeast(WatchOS, 5, 0)]

  const CriticalNamedSoundGate: seq<Clause> :=
    [AtLeast(IOS, 12, 0), AtLeast(MacOS, 10, 14), AtLeast(MacCatalyst, 13, 1), AtLeast(VisionOS, 1, 0)]

  /** The ringtone gate names iOS 15.2 twice. */
  const RingtoneGate: seq<Clause> := [AtLeast(IOS, 15, 2), AtLeast(IOS, 15, 2)]

  /** The native sound each variant asks for when the platform supports it. */
  function Requested(s: Sound): NativeSound {
    match s
    case Default => UNDefaultSound
    case Named(n) => UNSoundNamed(n)
    case DefaultCriticalSound => UNDefaultCriticalSound
    case DefaultCriticalSoundWithVolume(v) => UNDefaultCriticalSoundWithVolume(v)
    case CriticalSoundNamed(n) => UNCriticalSoundNamed(n)
    case CriticalSoundNamedWithVolume(n, v) => UNCriticalSoundNamedWithVolume(n, v)
    case DefaultRingtone => UNDefaultRingtoneSound
    case RingtoneSoundNamed(n) => UNRingtoneSoundNamed(n)
  }

  /** Whether the running platform can play the sound a variant asks for. */
  predicate Supported(s: Sound, av: AppleVersion, target: Target) {
    match s
    case Default => true
    case Named(_) => target != WatchOSTarget
    case DefaultCriticalSound => GateHolds(av, CriticalSoundGate)
    case DefaultCriticalSoundWithVolume(_) => GateHolds(av, CriticalSoundGate)
    case CriticalSoundNamed(_) => target != WatchOSTarget && GateHolds(av, CriticalNamedSoundGate)
    case CriticalSoundNamedWithVolume(_, _) => target != WatchOSTarget && GateHolds(av, CriticalNamedSoundGate)
    case DefaultRingtone => target == IOSTarget && GateHolds(av, RingtoneGate)
    case RingtoneSoundNamed(_) => target == IOSTarget && GateHolds(av, RingtoneGate)
  }

  /**
   * `Into<Id<UNNotificationSound>> for Sound`: the requested sound when the
   * platform supports it, and the default sound otherwise.
   */
  function SoundToNative(s: Sound, av: AppleVersion, target: Target): (r: NativeSound)
    ensures r == Requested(s) || r == UNDefaultSound
    ensures r == Requested(s) <==> Supported(s, av, target)
  {
    match s
    case Default => UNDefaultSound
    case DefaultCriticalSound =>
      if GateHolds(av, CriticalSoundGate) then UNDefaultCriticalSound else UNDefaultSound
    case DefaultRingtone =>
      if target == IOSTarget && GateHolds(av, RingtoneGate) then UNDefaultRingtoneSound else UNDefaultSound
    case DefaultCriticalSoundWithVolume(volume) =>
      if GateHolds(av, CriticalSoundGate) then UNDefaultCriticalSoundWithVolume(volume) else UNDefaultSound
    case Named(name) =>
      if target == WatchOSTarget then UNDefaultSound else UNSoundNamed(name)
    case CriticalSoundNamed(name) =>
      if target == WatchOSTarget then UNDefaultSound
      else if GateHolds(av, CriticalNamedSoundGate) then UNCriticalSoundNamed(name)
      else UNDefaultSound
    case CriticalSoundNamedWithVolume(name, volume) =>
      if target == WatchOSTarget then UNDefaultSound
      else if GateHolds(av, CriticalNamedSoundGate) then UNCriticalSoundNamedWithVolume(name, volume)
      else UNDefaultSound
    case RingtoneSoundNamed(name) =>
      if target == IOSTarget && GateHolds(av, RingtoneGate) then UNRingtoneSoundNamed(name) else UNDefaultSound
  }

  /** Ringtones fall back to the default sound on every build that is not iOS. */
  lemma RingtonesDefaultOffIOS(s: Sound, av: AppleVersion, target: Target)
    requires s.DefaultRingtone? || s.RingtoneSoundNamed?
    requires target != IOSTarget
    ensures SoundToNative(s, av, target) == UNDefaultSound
  {
  }

  /** The doubled ringtone clause is the single comparison `av >= (iOS, 15, 2)`. */
  lemma RingtoneGateIsOneComparison(av: AppleVersion)
    ensures GateHolds(av, RingtoneGate) <==> Ge(av, (IOS, 15, 2))
  {
    var rest := RingtoneGate[1..];
    assert rest == [AtLeast(IOS, 15, 2)] && rest[1..] == [];
    assert GateHolds(av, rest) <==> ClauseHolds(av, AtLeast(IOS, 15, 2));
  }

  /** On macOS a critical sound is played exactly from 10.14 on. */
  lemma CriticalSoundOnMacOS(av: AppleVersion)
    requires av.os == MacOS
    ensures (SoundToNative(DefaultCriticalSound, av, MacOSTarget) == UNDefaultCriticalSound)
              <==> Rank(av.major, av.minor) >= Rank(10, 14)
  {
    GateReducesToRunningOs(av, CriticalSoundGate);
    assert ClauseFor(CriticalSoundGate, MacOS) == Some(AtLeast(MacOS, 10, 14));
  }

  // ------------------------------------------------------ uniform type identifiers

  datatype UTType =
    | UTTypeWAV | UTTypeMP3 | UTTypeMPEG4Audio | UTTypeAIFF
    | UTTypeMPEG | UTTypeAVI | UTTypeMPEG4Movie | UTTypeMPEG2Video
    | UTTypePNG | UTTypeJPEG | UTTypeGIF

  datatype AudioFormat = WaveformAudio | MP3 | MPEG4Audio | AudioInterchangeFileFormat
  datatype VideoFormat = MPEG | MPEG2Video | MPEG4 | AVIMovie
  datatype ImageFormat = PNG | JPEG
  datatype AnimatedImageFormat = PNG | GIF

  /** `AudioFormat::to_uttype` */
  function AudioUTType(f: AudioFormat): (t: UTType)
    ensures t in {UTTypeWAV, UTTypeMP3, UTTypeMPEG4Audio, UTTypeAIFF}
    ensures (t == UTTypeWAV <==> f == WaveformAudio) && (t == UTTypeMP3 <==> f == MP3)
    ensures (t == UTTypeMPEG4Audio <==> f == MPEG4Audio) && (t == UTTypeAIFF <==> f == AudioInterchangeFileFormat)
  {
    match f
    case WaveformAudio => UTTypeWAV
    case MP3 => UTTypeMP3
    case MPEG4Audio => UTTypeMPEG4Audio
    case AudioInterchangeFileFormat => UTTypeAIFF
  }

  /** `VideoFormat::to_uttype` */
  function VideoUTType(f: VideoFormat): (t: UTType)
    ensures t in {UTTypeMPEG, UTTypeAVI, UTTypeMPEG4Movie, UTTypeMPEG2Video}
    ensures (t == UTTypeMPEG <==> f == MPEG) && (t == UTTypeAVI <==> f == AVIMovie)
    ensures (t == UTTypeMPEG4Movie <==> f == MPEG4) && (t == UTTypeMPEG2Video <==> f == MPEG2Video)
  {
    match f
    case MPEG => UTTypeMPEG
    case AVIMovie => UTTypeAVI
    case MPEG4 => UTTypeMPEG4Movie
    case MPEG2Video => UTTypeMPEG2Video
  }

  /** `ImageFormat::to_uttype` */
  function ImageUTType(f: ImageFormat): (t: UTType)
    ensures t in {UTTypePNG, UTTypeJPEG}
    ensures (t == UTTypePNG <==> f == ImageFormat.PNG) && (t == UTTypeJPEG <==> f == JPEG)
  {
    match f
    case PNG => UTTypePNG
    case JPEG => UTTypeJPEG
  }

  /** `AnimatedImageFormat::to_uttype` */
  function AnimatedImageUTType(f: AnimatedImageFormat): (t: UTType)
    ensures t in {UTTypePNG, UTTypeGIF}
    ensures (t == UTTypePNG <==> f == AnimatedImageFormat.PNG) && (t == UTTypeGIF <==> f == GIF)
  {
    match f
    case PNG => UTTypePNG
    case GIF => UTTypeGIF
  }

  /** Within each family distinct formats name distinct types; still and animated PNG share one. */
  lemma UTTypesDistinguishFormats(a1: AudioFormat, a2: AudioFormat, v1: VideoFormat, v2: VideoFormat,
                                  i1: ImageFormat, i2: ImageFormat, g1: AnimatedImageFormat, g2: AnimatedImageFormat)
    ensures AudioUTType(a1) == AudioUTType(a2) ==> a1 == a2
    ensures VideoUTType(v1) == VideoUTType(v2) ==> v1 == v2
    ensures ImageUTType(i1) == ImageUTType(i2) ==> i1 == i2
    ensures AnimatedImageUTType(g1) == AnimatedImageUTType(g2) ==> g1 == g2
    ensures ImageUTType(ImageFormat.PNG) == AnimatedImageUTType(AnimatedImageFormat.PNG)
  {
  }

  // ------------------------------------------------------ attachment options

  datatype ThumbnailClippingRect = ThumbnailClippingRect(origin: (F32, F32), size: (F32, F32))

  datatype VideoTime = Start | End | Time(duration: Duration)

  datatype AttachmentOptions =
    | Audio(audioFormat: Option<AudioFormat>)
    | Video(videoFormat: Option<VideoFormat>, thumbnailTime: Option<VideoTime>,
            videoCrop: Option<ThumbnailClippingRect>, videoHide: Option<bool>)
    | Image(imageFormat: Option<ImageFormat>,
            imageCrop: Option<ThumbnailClippingRect>, imageHide: Option<bool>)
    | AnimatedImage(animatedFormat: Option<AnimatedImageFormat>, thumbnailFrame: Option<nat>,
                    animatedCrop: Option<ThumbnailClippingRect>, animatedHide: Option<bool>)

  /** A format of the family matching one kind of options. */
  datatype Format =
    | AudioFmt(audio: AudioFormat)
    | VideoFmt(video: VideoFormat)
    | ImageFmt(image: ImageFormat)
    | AnimatedImageFmt(animated: AnimatedImageFormat)

  /** The type identifier a format names, whatever options it is set on. */
  function UTTypeOf(f: Format): UTType {
    match f
    case AudioFmt(a) => AudioUTType(a)
    case VideoFmt(v) => VideoUTType(v)
    case ImageFmt(i) => ImageUTType(i)
    case AnimatedImageFmt(g) => AnimatedImageUTType(g)
  }

  predicate FormatFits(o: AttachmentOptions, f: Format) {
    (o.Audio? && f.AudioFmt?) || (o.Video? && f.VideoFmt?)
    || (o.Image? && f.ImageFmt?) || (o.AnimatedImage? && f.AnimatedImageFmt?)
  }

  /** The options with a thumbnail: all but audio. */
  predicate Thumbnailed(o: AttachmentOptions) {
    !o.Audio?
  }

  /** The type identifier of the format set on the options, if any. */
  function FormatUTType(o: AttachmentOptions): Option<UTType> {
    match o
    case Audio(f) => if f.Some? then Some(AudioUTType(f.value)) else None
    case Video(f, _, _, _) => if f.Some? then Some(VideoUTType(f.value)) else None
    case Image(f, _, _) => if f.Some? then Some(ImageUTType(f.value)) else None
    case AnimatedImage(f, _, _, _) => if f.Some? then Some(AnimatedImageUTType(f.value)) else None
  }

  function HideOf(o: AttachmentOptions): Option<bool> {
    match o
    case Audio(_) => None
    case Video(_, _, _, h) => h
    case Image(_, _, h) => h
    case AnimatedImage(_, _, _, h) => h
  }

  function CropOf(o: AttachmentOptions): Option<ThumbnailClippingRect> {
    match o
    case Audio(_) => None
    case Video(_, _, c, _) => c
    case Image(_, c, _) => c
    case AnimatedImage(_, _, c, _) => c
  }

  /** `UnifiedAttachmentOptions::set_format`: sets the format and nothing else. */
  function SetFormat(o: AttachmentOptions, f: Format): (r: AttachmentOptions)
    requires FormatFits(o, f)
    ensures FormatFits(r, f) && HideOf(r) == HideOf(o) && CropOf(r) == CropOf(o)
    ensures FormatUTType(r) == Some(UTTypeOf(f))
    ensures r.Audio? ==> r.audioFormat == Some(f.audio)
    ensures r.Video? ==> r.videoFormat == Some(f.video)
    ensures r.Image? ==> r.imageFormat == Some(f.image)
    ensures r.AnimatedImage? ==> r.animatedFormat == Some(f.animated)
    ensures r.Video? ==> r.thumbnailTime == o.thumbnailTime
    ensures r.AnimatedImage? ==> r.thumbnailFrame == o.thumbnailFrame
  {
    match o
    case Audio(_) => Audio(Some(f.audio))
    case Video(_, t, c, h) => Video(Some(f.video), t, c, h)
    case Image(_, c, h) => Image(Some(f.image), c, h)
    case AnimatedImage(_, n, c, h) => AnimatedImage(Some(f.animated), n, c, h)
  }

  /** `ThumbnailedAttachmentOptions::hide_thumbnail`: sets the hidden flag and nothing else. */
  function HideThumbnail(o: AttachmentOptions, hidden: bool): (r: AttachmentOptions)
    requires Thumbnailed(o)
    ensures Thumbnailed(r) && HideOf(r) == Some(hidden)
    ensures FormatUTType(r) == FormatUTType(o) && CropOf(r) == CropOf(o)
    ensures r.Video? <==> o.Video?
    ensures r.Video? ==> r.thumbnailTime == o.thumbnailTime
    ensures r.AnimatedImage? <==> o.AnimatedImage?
    ensures r.AnimatedImage? ==> r.thumbnailFrame == o.thumbnailFrame
  {
    match o
    case Video(f, t, c, _) => Video(f, t, c, Some(hidden))
    case Image(f, c, _) => Image(f, c, Some(hidden))
    case AnimatedImage(f, n, c, _) => AnimatedImage(f, n, c, Some(hidden))
  }

  /** `ThumbnailedAttachmentOptions::crop_thumbnail`: sets the clipping rectangle and nothing else. */
  function CropThumbnail(o: AttachmentOptions, rect: ThumbnailClippingRect): (r: AttachmentOptions)
    requires Thumbnailed(o)
    ensures Thumbnailed(r) && CropOf(r) == Some(rect)
    ensures FormatUTType(r) == FormatUTType(o) && HideOf(r) == HideOf(o)
    ensures r.Video? <==> o.Video?
    ensures r.Video? ==> r.thumbnailTime == o.thumbnailTime
    ensures r.AnimatedImage? <==> o.AnimatedImage?
    ensures r.AnimatedImage? ==> r.thumbnailFrame == o.thumbnailFrame
  {
    match o
    case Video(f, t, _, h) => Video(f, t, Some(rect), h)
    case Image(f, _, h) => Image(f, Some(rect), h)
    case AnimatedImage(f, n, _, h) => AnimatedImage(f, n, Some(rect), h)
  }

  /** The keys of the native attachment-options dictionary. */
  datatype OptionKey = TypeHintKey | ThumbnailHiddenKey | ThumbnailClippingRectKey | ThumbnailTimeKey

  /** The values stored under those keys; the `CMTime` ones are named by how they were made. */
  datatype OptionValue =
    | TypeHint(uttype: UTType)
    | Hidden(hidden: bool)
    | ClippingRect(rect: ThumbnailClippingRect)
    | FrameNumber(frame: nat)
    | CMTimeZero
    | CMTimePositiveInfinity
    | CMTimeWithSeconds(duration: Duration)

  /** The video thumbnail-time guard `!(APPLE_VERSION < (WatchOS, 6, 0))`. */
  predicate VideoTimeAllowed(av: AppleVersion) {
    !Lt(av, (WatchOS, 6, 0))
  }

  function CMTimeOf(t: VideoTime): OptionValue {
    match t
    case Start => CMTimeZero
    case End => CMTimePositiveInfinity
    case Time(d) => CMTimeWithSeconds(d)
  }

  /** What the options dictionary holds under one key, if anything. */
  function OptionEntry(o: AttachmentOptions, av: AppleVersion, k: OptionKey): Option<OptionValue> {
    match k
    case TypeHintKey => if FormatUTType(o).Some? then Some(TypeHint(FormatUTType(o).value)) else None
    case ThumbnailHiddenKey => if HideOf(o).Some? then Some(Hidden(HideOf(o).value)) else None
    case ThumbnailClippingRectKey => if CropOf(o).Some? then Some(ClippingRect(CropOf(o).value)) else None
    case ThumbnailTimeKey =>
      if o.Video? && o.thumbnailTime.Some? && VideoTimeAllowed(av) then Some(CMTimeOf(o.thumbnailTime.value))
      else if o.AnimatedImage? && o.thumbnailFrame.Some? then Some(FrameNumber(o.thumbnailFrame.value))
      else None
  }

  /** The options dictionary, key by key. */
  function OptionsDictionary(o: AttachmentOptions, av: AppleVersion): map<OptionKey, OptionValue> {
    map k: OptionKey | OptionEntry(o, av, k).Some? :: OptionEntry(o, av, k).value
  }

  /**
   * Filling the fresh `NSMutableDictionary` of `Attachment::try_into`, one
   * `setObject_forKey` at a time.
   */
  method BuildOptionsDictionary(o: AttachmentOptions, av: AppleVersion) returns (d: map<OptionKey, OptionValue>)
    ensures d == OptionsDictionary(o, av)
  {
    d := map[];
    var utType := FormatUTType(o);
    if utType.Some? {
      d := d[TypeHintKey := TypeHint(utType.value)];
    }
    match o {
      case Video(_, _, _, Some(hidden)) => d := d[ThumbnailHiddenKey := Hidden(hidden)];
      case Image(_, _, Some(hidden)) => d := d[ThumbnailHiddenKey := Hidden(hidden)];
      case AnimatedImage(_, _, _, Some(hidden)) => d := d[ThumbnailHiddenKey := Hidden(hidden)];
      case _ =>
    }
    match o {
      case Video(_, _, Some(rect), _) => d := d[ThumbnailClippingRectKey := ClippingRect(rect)];
      case Image(_, Some(rect), _) => d := d[ThumbnailClippingRectKey := ClippingRect(rect)];
      case AnimatedImage(_, _, Some(rect), _) => d := d[ThumbnailClippingRectKey := ClippingRect(rect)];
      case _ =>
    }
    if o.AnimatedImage? && o.thumbnailFrame.Some? {
      d := d[ThumbnailTimeKey := FrameNumber(o.thumbnailFrame.value)];
    }
    if o.Video? && o.thumbnailTime.Some? {
      match o.thumbnailTime.value {
        case Start =>
          if !Lt(av, (WatchOS, 6, 0)) { d := d[ThumbnailTimeKey := CMTimeZero]; }
        case End =>
          if !Lt(av, (WatchOS, 6, 0)) { d := d[ThumbnailTimeKey := CMTimePositiveInfinity]; }
        case Time(dur) =>
          if !Lt(av, (WatchOS, 6, 0)) { d := d[ThumbnailTimeKey := CMTimeWithSeconds(dur)]; }
      }
    }
    EntriesDetermineDictionary(d, o, av);
  }

  /** A dictionary that agrees with `OptionEntry` on each of the four keys is the options dictionary. */
  lemma EntriesDetermineDictionary(d: map<OptionKey, OptionValue>, o: AttachmentOptions, av: AppleVersion)
    requires forall k: OptionKey :: OptionEntry(o, av, k) == (if k in d then Some(d[k]) else None)
    ensures d == OptionsDictionary(o, av)
  {
  }

  /** The type hint is present exactly when a format was set, and names that format. */
  lemma TypeHintIffFormat(o: AttachmentOptions, av: AppleVersion)
    ensures TypeHintKey in OptionsDictionary(o, av) <==> FormatUTType(o).Some?
    ensures FormatUTType(o).Some? ==> OptionsDictionary(o, av)[TypeHintKey] == TypeHint(FormatUTType(o).value)
  {
    assert OptionEntry(o, av, TypeHintKey).Some? <==> FormatUTType(o).Some?;
  }

  /** Audio options never carry the hidden or clipping keys. */
  lemma AudioHasNoThumbnailKeys(o: AttachmentOptions, av: AppleVersion)
    requires o.Audio?
    ensures OptionsDictionary(o, av).Keys <= {TypeHintKey}
  {
    forall k | k in OptionsDictionary(o, av) ensures k == TypeHintKey {
      assert OptionEntry(o, av, k).Some?;
    }
  }

  /** The comparison against watchOS 6 is false on every other system, so the video time key is written there. */
  lemma VideoTimeWrittenOffWatchOS(o: AttachmentOptions, av: AppleVersion)
    requires o.Video? && o.thumbnailTime.Some?
    requires av.os != WatchOS
    ensures ThumbnailTimeKey in OptionsDictionary(o, av)
    ensures OptionsDictionary(o, av)[ThumbnailTimeKey] == CMTimeOf(o.thumbnailTime.value)
  {
    assert VideoTimeAllowed(av);
    assert OptionEntry(o, av, ThumbnailTimeKey).Some?;
  }

  /** An animated image's frame number goes under the same time key, whatever the system. */
  lemma AnimatedFrameUsesTimeKey(o: AttachmentOptions, av: AppleVersion)
    requires o.AnimatedImage? && o.thumbnailFrame.Some?
    ensures ThumbnailTimeKey in OptionsDictionary(o, av)
    ensures OptionsDictionary(o, av)[ThumbnailTimeKey] == FrameNumber(o.thumbnailFrame.value)
  {
    assert OptionEntry(o, av, ThumbnailTimeKey).Some?;
  }

  // ------------------------------------------------------------ attachments

  datatype Attachment = Attachment(identifier: string, url: Url, options: Option<AttachmentOptions>)

  /** The arguments of `attachmentWithIdentifier:URL:options:error:`. */
  datatype AttachmentRequest = AttachmentRequest(
    identifier: string, url: Url, options: Option<map<OptionKey, OptionValue>>)

  /** A `UNNotificationAttachment` the framework accepted. */
  datatype NativeAttachment = NativeAttachment(request: AttachmentRequest)

  function AttachmentRequestOf(a: Attachment, av: AppleVersion): AttachmentRequest {
    AttachmentRequest(a.identifier, a.url,
                      if a.options.Some? then Some(OptionsDictionary(a.options.value, av)) else None)
  }

  /** The framework's verdict on one attachment: accepted, or refused with a description. */
  function ConvertAttachment(a: Attachment, av: AppleVersion,
                             framework: AttachmentRequest -> Option<string>): Result<NativeAttachment, string>
  {
    var request := AttachmentRequestOf(a, av);
    if framework(request).None? then Success(NativeAttachment(request)) else Failure(framework(request).value)
  }

  /** `TryInto<Id<UNNotificationAttachment>> for Attachment` */
  method AttachmentToNative(a: Attachment, av: AppleVersion, framework: AttachmentRequest -> Option<string>)
    returns (r: Result<NativeAttachment, string>)
    ensures r == ConvertAttachment(a, av, framework)
    ensures r.Success? ==> r.value.request.identifier == a.identifier && r.value.request.url == a.url
    ensures r.Success? ==> (r.value.request.options.None? <==> a.options.None?)
  {
    var options: Option<map<OptionKey, OptionValue>> := None;
    if a.options.Some? {
      var d := BuildOptionsDictionary(a.options.value, av);
      options := Some(d);
    }
    var request := AttachmentRequest(a.identifier, a.url, options);
    var refusal := framework(request);
    if refusal.None? {
      r := Success(NativeAttachment(request));
    } else {
      r := Failure(refusal.value);
    }
  }

  /** Converting attachments in order; the first refusal ends the conversion. */
  function ConvertAttachments(atts: seq<Attachment>, av: AppleVersion,
                              framework: AttachmentRequest -> Option<string>): Result<seq<NativeAttachment>, string>
    decreases |atts|
  {
    if |atts| == 0 then Success([])
    else match ConvertAttachments(atts[..|atts| - 1], av, framework)
      case Failure(e) => Failure(e)
      case Success(done) =>
        match ConvertAttachment(atts[|atts| - 1], av, framework)
        case Failure(e) => Failure(e)
        case Success(x) => Success(done + [x])
  }

  predicate Refused(a: Attachment, av: AppleVersion, framework: AttachmentRequest -> Option<string>) {
    framework(AttachmentRequestOf(a, av)).Some?
  }

  /**
   * The conversion of a list fails exactly when some attachment is refused,
   * and then with the refusal of the first one; otherwise it yields one
   * native attachment per attachment, in order.
   */
  lemma {:induction false} ConvertAttachmentsFirstRefusal(atts: seq<Attachment>, av: AppleVersion,
                                                           framework: AttachmentRequest -> Option<string>)
    ensures ConvertAttachments(atts, av, framework).Failure? <==> exists i :: 0 <= i < |atts| && Refused(atts[i], av, framework)
    ensures ConvertAttachments(atts, av, framework).Failure? ==>
              exists i :: 0 <= i < |atts| && Refused(atts[i], av, framework)
                && (forall j :: 0 <= j < i ==> !Refused(atts[j], av, framework))
                && ConvertAttachments(atts, av, framework).error == framework(AttachmentRequestOf(atts[i], av)).value
    ensures ConvertAttachments(atts, av, framework).Success? ==>
              |ConvertAttachments(atts, av, framework).value| == |atts|
              && forall i :: 0 <= i < |atts| ==>
                   ConvertAttachments(atts, av, framework).value[i] == NativeAttachment(AttachmentRequestOf(atts[i], av))
    decreases |atts|
  {
    if |atts| > 0 {
      var init := atts[..|atts| - 1];
      var last := atts[|atts| - 1];
      ConvertAttachmentsFirstRefusal(init, av, framework);
      assert forall i :: 0 <= i < |init| ==> init[i] == atts[i];
      if ConvertAttachments(init, av, framework).Failure? {
        var i :| 0 <= i < |init| && Refused(init[i], av, framework)
                 && (forall j :: 0 <= j < i ==> !Refused(init[j], av, framework))
                 && ConvertAttachments(init, av, framework).error == framework(AttachmentRequestOf(init[i], av)).value;
        assert Refused(atts[i], av, framework);
      } else if Refused(last, av, framework) {
        assert Refused(atts[|atts| - 1], av, framework);
      }
    }
  }

  /** A failure on a prefix is the failure of every longer prefix. */
  lemma {:induction false} RefusalPersists(atts: seq<Attachment>, i: nat, av: AppleVersion,
                                           framework: AttachmentRequest -> Option<string>)
    requires i <= |atts|
    requires ConvertAttachments(atts[..i], av, framework).Failure?
    ensures ConvertAttachments(atts, av, framework) == ConvertAttachments(atts[..i], av, framework)
    decreases |atts| - i
  {
    if i < |atts| {
      assert atts[..i + 1][..i] == atts[..i];
      RefusalPersists(atts, i + 1, av, framework);
    } else {
      assert atts[..i] == atts;
    }
  }

  // ---------------------------------------------------------------- triggers

  /**
   * One field of a cron schedule. `All` is a field whose `is_all()` holds: a
   * `*`, or a list that covers the field's whole range. `Values` is any
   * other field, with its ordinals in the ascending order the cron crate
   * iterates them.
   */
  datatype CronUnit = All | Values(ordinals: seq<nat>)

  datatype Schedule = Schedule(
    seconds: CronUnit, minutes: CronUnit, hours: CronUnit, daysOfMonth: CronUnit,
    months: CronUnit, daysOfWeek: CronUnit, years: CronUnit)

  /**
   * A field as a parsed cron schedule holds it: ordinals strictly ascending,
   * within the field's range [lo, hi], and never the whole range, which
   * parses as `All`.
   */
  predicate WellFormedUnit(u: CronUnit, lo: nat, hi: nat) {
    u.Values? ==>
      (forall i, j :: 0 <= i < j < |u.ordinals| ==> u.ordinals[i] < u.ordinals[j])
      && (forall i :: 0 <= i < |u.ordinals| ==> lo <= u.ordinals[i] <= hi)
      && |u.ordinals| < hi - lo + 1
  }

  /** Every field within the cron crate's ranges for seconds, minutes, hours, days, months, weekdays and years. */
  predicate WellFormedSchedule(s: Schedule) {
    WellFormedUnit(s.seconds, 0, 59) && WellFormedUnit(s.minutes, 0, 59) && WellFormedUnit(s.hours, 0, 23)
    && WellFormedUnit(s.daysOfMonth, 1, 31) && WellFormedUnit(s.months, 1, 12)
    && WellFormedUnit(s.daysOfWeek, 1, 7) && WellFormedUnit(s.years, 1970, 2100)
  }

  /** Whether an optional component lies in [lo, hi] when it is set. */
  predicate InRange(c: Option<int>, lo: int, hi: int) {
    c.Some? ==> lo <= c.value <= hi
  }

  datatype TriggerKind = TimeInterval(duration: Duration) | Calendar(schedule: Schedule)

  datatype Trigger = Trigger(kind: TriggerKind, repeats: bool)

  /** `NSDateComponents`: the value each setter received, if called. */
  datatype DateComponents = DateComponents(
    year: Option<int>, month: Option<int>, day: Option<int>, hour: Option<int>,
    minute: Option<int>, second: Option<int>, weekdayOrdinal: Option<int>)

  const NoComponents := DateComponents(None, None, None, None, None, None, None)

  datatype NativeTrigger =
    | TimeIntervalTrigger(interval: Duration, repeats: bool)
    | CalendarTrigger(components: DateComponents, repeats: bool)

  const InvalidCronPattern := "invalid cron pattern"
  const UnsupportedCronPattern := "Unsupported cron pattern"

  /**
   * `get_first_cron_unit`: no value for an "every" field, the value of a
   * single-valued field, and a panic (the `Failure` message) otherwise.
   */
  function FirstCronUnit(u: CronUnit): (r: Result<Option<nat>, string>)
    ensures r == Success(None) <==> u.All?
    ensures r.Success? && r.value.Some? <==> u.Values? && |u.ordinals| == 1
    ensures r.Success? && r.value.Some? ==> u.ordinals == [r.value.value]
    ensures r == Failure(InvalidCronPattern) <==> u == Values([])
    ensures r == Failure(UnsupportedCronPattern) <==> u.Values? && |u.ordinals| >= 2
  {
    match u
    case All => Success(None)
    case Values(vs) =>
      if |vs| == 0 then Failure(InvalidCronPattern)
      else if |vs| >= 2 then Failure(UnsupportedCronPattern)
      else Success(Some(vs[0]))
  }

  /** The source's panicking cron tests: an interval or range of years has several values. */
  lemma IntervalsAndRangesPanic()
    ensures FirstCronUnit(Values([2019, 2021, 2023])).Failure?
    ensures FirstCronUnit(Values([2019, 2020, 2021, 2022, 2023])).Failure?
    ensures FirstCronUnit(Values([1, 2])) == Failure(UnsupportedCronPattern)
  {
  }

  /** The seven units in the order the conversion reads them, with their first values. */
  datatype CronFields = CronFields(
    year: Option<int>, month: Option<int>, day: Option<int>, hour: Option<int>,
    minute: Option<int>, second: Option<int>, weekday: Option<int>)

  function CronFieldsOf(s: Schedule): Result<CronFields, string> {
    var y := FirstCronUnit(s.years);
    var mo := FirstCronUnit(s.months);
    var d := FirstCronUnit(s.daysOfMonth);
    var h := FirstCronUnit(s.hours);
    var mi := FirstCronUnit(s.minutes);
    var se := FirstCronUnit(s.seconds);
    var w := FirstCronUnit(s.daysOfWeek);
    if y.Failure? then Failure(y.error)
    else if mo.Failure? then Failure(mo.error)
    else if d.Failure? then Failure(d.error)
    else if h.Failure? then Failure(h.error)
    else if mi.Failure? then Failure(mi.error)
    else if se.Failure? then Failure(se.error)
    else if w.Failure? then Failure(w.error)
    else Success(CronFields(OptInt(y.value), OptInt(mo.value), OptInt(d.value), OptInt(h.value),
                            OptInt(mi.value), OptInt(se.value), OptInt(w.value)))
  }

  function OptInt(o: Option<nat>): Option<int> {
    if o.Some? then Some(o.value as int) else None
  }

  /** The components as the code writes them: the day of the month lands in the month. */
  function AsWrittenComponents(s: Schedule): Result<DateComponents, string> {
    match CronFieldsOf(s)
    case Failure(e) => Failure(e)
    case Success(f) =>
      Success(DateComponents(f.year, if f.day.Some? then f.day else f.month, None,
                             f.hour, f.minute, f.second, f.weekday))
  }

  /** The components as intended: every unit in its own field, the day of week as weekday ordinal. */
  function IntendedComponents(s: Schedule): Result<DateComponents, string> {
    match CronFieldsOf(s)
    case Failure(e) => Failure(e)
    case Success(f) =>
      Success(DateComponents(f.year, f.month, f.day, f.hour, f.minute, f.second, f.weekday))
  }

  /**
   * With a single month and a single day of the month, the code as written
   * loses the month and never sets the day, while the intended components
   * keep both.
   */
  lemma DayOfMonthOverwritesMonth(s: Schedule, month: nat, day: nat)
    requires s.months == Values([month]) && s.daysOfMonth == Values([day])
    requires IntendedComponents(s).Success?
    ensures AsWrittenComponents(s).Success?
    ensures AsWrittenComponents(s).value.month == Some(day as int)
    ensures AsWrittenComponents(s).value.day == None
    ensures IntendedComponents(s).value.month == Some(month as int)
    ensures IntendedComponents(s).value.day == Some(day as int)
  {
  }

  /** The source's own test pattern `* * * 1 Dec * 2019`: December becomes January. */
  lemma FirstOfDecemberBecomesJanuary()
    ensures var s := Schedule(All, All, All, Values([1]), Values([12]), All, Values([2019]));
            AsWrittenComponents(s) == Success(DateComponents(Some(2019), Some(1), None, None, None, None, None))
            && IntendedComponents(s) == Success(DateComponents(Some(2019), Some(12), Some(1), None, None, None, None))
  {
  }

  /** The single value of a unit that lists exactly one, as an integer. */
  function SingleValue(u: CronUnit): Option<int> {
    if u.Values? && |u.ordinals| == 1 then Some(u.ordinals[0] as int) else None
  }

  /**
   * Each intended component is its own unit's single value (the day of the
   * week as the weekday ordinal); the components as written differ only in
   * that the day of the month, when given, replaces the month and the day is
   * left unset.
   */
  lemma ComponentsFromUnits(s: Schedule)
    ensures AsWrittenComponents(s).Success? <==> IntendedComponents(s).Success?
    ensures IntendedComponents(s).Success? ==>
              var c := IntendedComponents(s).value;
              c.year == SingleValue(s.years) && c.month == SingleValue(s.months)
              && c.day == SingleValue(s.daysOfMonth) && c.hour == SingleValue(s.hours)
              && c.minute == SingleValue(s.minutes) && c.second == SingleValue(s.seconds)
              && c.weekdayOrdinal == SingleValue(s.daysOfWeek)
    ensures AsWrittenComponents(s).Success? ==>
              var w := AsWrittenComponents(s).value;
              w.month == (if s.daysOfMonth.Values? then SingleValue(s.daysOfMonth) else SingleValue(s.months))
              && w.day == None
              && w == IntendedComponents(s).value.(month := w.month, day := None)
  {
  }

  /**
   * For a parsed schedule, every intended component lies in its field's
   * range; as written, the month holds values up to 31, and a day of the
   * month after the 12th puts it outside the range of months.
   */
  lemma WellFormedComponentsInRange(s: Schedule)
    requires WellFormedSchedule(s)
    ensures IntendedComponents(s).Success? ==>
              var c := IntendedComponents(s).value;
              InRange(c.year, 1970, 2100) && InRange(c.month, 1, 12) && InRange(c.day, 1, 31)
              && InRange(c.hour, 0, 23) && InRange(c.minute, 0, 59) && InRange(c.second, 0, 59)
              && InRange(c.weekdayOrdinal, 1, 7)
    ensures AsWrittenComponents(s).Success? ==> InRange(AsWrittenComponents(s).value.month, 1, 31)
    ensures (AsWrittenComponents(s).Success? && SingleValue(s.daysOfMonth).Some? && SingleValue(s.daysOfMonth).value > 12)
              ==> !InRange(AsWrittenComponents(s).value.month, 1, 12)
  {
    ComponentsFromUnits(s);
  }

  /** A calendar conversion succeeds exactly when no unit lists zero or several values. */
  lemma CalendarFailsOnMultiValuedUnit(s: Schedule)
    ensures IntendedComponents(s).Success? <==>
              forall u :: u in [s.years, s.months, s.daysOfMonth, s.hours, s.minutes, s.seconds, s.daysOfWeek] ==>
                u.All? || |u.ordinals| == 1
  {
    var units := [s.years, s.months, s.daysOfMonth, s.hours, s.minutes, s.seconds, s.daysOfWeek];
    assert units[0] == s.years && units[1] == s.months && units[2] == s.daysOfMonth;
    assert units[3] == s.hours && units[4] == s.minutes && units[5] == s.seconds && units[6] == s.daysOfWeek;
  }

  /**
   * Filling a fresh `NSDateComponents` from a schedule, one setter per
   * single-valued unit, with the day of the month in the day field.
   */
  method CalendarComponents(s: Schedule) returns (r: Result<DateComponents, string>)
    ensures r == IntendedComponents(s)
  {
    var c := NoComponents;
    var year := FirstCronUnit(s.years);
    if year.Failure? { return Failure(year.error); }
    if year.value.Some? { c := c.(year := Some(year.value.value)); }
    var month := FirstCronUnit(s.months);
    if month.Failure? { return Failure(month.error); }
    if month.value.Some? { c := c.(month := Some(month.value.value)); }
    var day := FirstCronUnit(s.daysOfMonth);
    if day.Failure? { return Failure(day.error); }
    if day.value.Some? { c := c.(day := Some(day.value.value)); }
    var hour := FirstCronUnit(s.hours);
    if hour.Failure? { return Failure(hour.error); }
    if hour.value.Some? { c := c.(hour := Some(hour.value.value)); }
    var minute := FirstCronUnit(s.minutes);
    if minute.Failure? { return Failure(minute.error); }
    if minute.value.Some? { c := c.(minute := Some(minute.value.value)); }
    var second := FirstCronUnit(s.seconds);
    if second.Failure? { return Failure(second.error); }
    if second.value.Some? { c := c.(second := Some(second.value.value)); }
    var weekday := FirstCronUnit(s.daysOfWeek);
    if weekday.Failure? { return Failure(weekday.error); }
    if weekday.value.Some? { c := c.(weekdayOrdinal := Some(weekday.value.value)); }
    r := Success(c);
  }

  /**
   * The trigger conversion of `Into<Id<UNNotificationTrigger>> for Trigger`
   * with the day of the month passed to `setDay`: the corrected conversion,
   * whose components are `IntendedComponents`; the code as written is
   * `AsWrittenComponents`. A `Failure` is the panic of an unsupported pattern.
   */
  function TriggerToNative(t: Trigger): (r: Result<NativeTrigger, string>)
    ensures r.Success? ==> r.value.repeats == t.repeats
    ensures t.kind.TimeInterval? ==> r == Success(TimeIntervalTrigger(t.kind.duration, t.repeats))
    ensures t.kind.Calendar? ==> (r.Success? <==> IntendedComponents(t.kind.schedule).Success?)
    ensures t.kind.Calendar? && r.Success? ==>
              r.value == CalendarTrigger(IntendedComponents(t.kind.schedule).value, t.repeats)
    ensures t.kind.Calendar? && r.Failure? ==> r.error in {InvalidCronPattern, UnsupportedCronPattern}
  {
    match t.kind
    case TimeInterval(d) => Success(TimeIntervalTrigger(d, t.repeats))
    case Calendar(s) =>
      match IntendedComponents(s)
      case Failure(e) => Failure(e)
      case Success(c) => Success(CalendarTrigger(c, t.repeats))
  }

  // ------------------------------------------------------- interruption levels

  datatype InterruptionLevel = Active | Critical | Passive | TimeSensitive

  datatype NativeInterruptionLevel =
    | UNInterruptionLevelActive | UNInterruptionLevelCritical
    | UNInterruptionLevelPassive | UNInterruptionLevelTimeSensitive

  /** `Into<UNNotificationInterruptionLevel> for InterruptionLevel` */
  function InterruptionLevelToNative(l: InterruptionLevel): NativeInterruptionLevel {
    match l
    case Active => UNInterruptionLevelActive
    case Critical => UNInterruptionLevelCritical
    case Passive => UNInterruptionLevelPassive
    case TimeSensitive => UNInterruptionLevelTimeSensitive
  }

  function NativeToInterruptionLevel(n: NativeInterruptionLevel): InterruptionLevel {
    match n
    case UNInterruptionLevelActive => Active
    case UNInterruptionLevelCritical => Critical
    case UNInterruptionLevelPassive => Passive
    case UNInterruptionLevelTimeSensitive => TimeSensitive
  }

  /** The level conversion is a bijection onto the four native constants. */
  lemma InterruptionLevelRoundTrip(l: InterruptionLevel, n: NativeInterruptionLevel)
    ensures NativeToInterruptionLevel(InterruptionLevelToNative(l)) == l
    ensures InterruptionLevelToNative(NativeToInterruptionLevel(n)) == n
  {
  }

  // -------------------------------------------------------------- bit flags

  /** `ActionOptions` */
  const ActionNone: bv8 := 0x0
  const ActionAuthenticationRequired: bv8 := 0x1
  const ActionDestructive: bv8 := 0x2
  const ActionForeground: bv8 := 0x4

  /** `CategoryOptions` */
  const CategoryNone: bv8 := 0x0
  const CategoryCustomDismissAction: bv8 := 0x1
  const CategoryAllowInCarPlay: bv8 := 0x2
  const CategoryHiddenPreviewShowTitle: bv8 := 0x4
  const CategoryHiddenPreviewShowSubtitle: bv8 := 0x8
  const CategoryAllowAnnouncement: bv8 := 0x10

  /** `AuthorizationOptions` */
  const AuthorizationNone: bv8 := 0x0
  const AuthorizationBadge: bv8 := 0x1
  const AuthorizationSound: bv8 := 0x2
  const AuthorizationAlert: bv8 := 0x4
  const AuthorizationCarPlay: bv8 := 0x8
  const AuthorizationCriticalAlert: bv8 := 0x10
  const AuthorizationProvidesAppNotificationSettings: bv8 := 0x20
  const AuthorizationProvisional: bv8 := 0x40

  /** A flag set contains a flag when every bit of the flag is set. */
  predicate HasFlag(set_: bv8, flag: bv8) {
    set_ & flag == flag
  }

  /** A flag of exactly one bit. */
  predicate SingleBit(b: bv8) {
    b != 0 && b & (b - 1) == 0
  }

  /**
   * The named flags have the values `bitflags!` gives them: each one bit of
   * its own, so each can be set and queried independently, and a named flag
   * contains no other named flag of its set.
   */
  lemma FlagsAreDistinctBits()
    ensures ActionFlags() == [1, 2, 4]
    ensures CategoryFlags() == [1, 2, 4, 8, 16]
    ensures AuthorizationFlags() == [1, 2, 4, 8, 16, 32, 64]
    ensures ActionNone == 0 && CategoryNone == 0 && AuthorizationNone == 0
    ensures forall i :: 0 <= i < 3 ==> SingleBit(ActionFlags()[i])
    ensures forall i :: 0 <= i < 5 ==> SingleBit(CategoryFlags()[i])
    ensures forall i :: 0 <= i < 7 ==> SingleBit(AuthorizationFlags()[i])
    ensures forall i, j :: 0 <= i < 3 && 0 <= j < 3 ==> (HasFlag(ActionFlags()[i], ActionFlags()[j]) <==> i == j)
    ensures forall i, j :: 0 <= i < 5 && 0 <= j < 5 ==> (HasFlag(CategoryFlags()[i], CategoryFlags()[j]) <==> i == j)
    ensures forall i, j :: 0 <= i < 7 && 0 <= j < 7 ==>
              (HasFlag(AuthorizationFlags()[i], AuthorizationFlags()[j]) <==> i == j)
  {
  }

  function ActionFlags(): (fs: seq<bv8>)
    ensures |fs| == 3
  {
    [ActionAuthenticationRequired, ActionDestructive, ActionForeground]
  }

  function CategoryFlags(): (fs: seq<bv8>)
    ensures |fs| == 5
  {
    [CategoryCustomDismissAction, CategoryAllowInCarPlay, CategoryHiddenPreviewShowTitle,
     CategoryHiddenPreviewShowSubtitle, CategoryAllowAnnouncement]
  }

  function AuthorizationFlags(): (fs: seq<bv8>)
    ensures |fs| == 7
  {
    [AuthorizationBadge, AuthorizationSound, AuthorizationAlert, AuthorizationCarPlay,
     AuthorizationCriticalAlert, AuthorizationProvidesAppNotificationSettings, AuthorizationProvisional]
  }

  // -------------------------------------------------------- categories and actions

  datatype ActionIcon = TemplateImageName(name: string) | SystemImageName(name: string)

  datatype Action = Action(identifier: string, title: string, icon: Option<ActionIcon>, options: bv8)

  datatype Category = Category(
    identifier: string, actions: seq<Action>, intentIdentifiers: seq<string>, options: bv8,
    hiddenPreviewBodyPlaceholder: Option<string>, categorySummaryFormat: Option<string>)

  /** The `UNNotificationActionIcon` factory that produced a native icon. */
  datatype NativeActionIcon = IconWithSystemImageName(name: string) | IconWithTemplateImageName(name: string)

  datatype NativeAction = NativeAction(identifier: string, title: string, options: bv8, icon: Option<NativeActionIcon>)

  datatype NativeCategory = NativeCategory(
    identifier: string, actions: seq<NativeAction>, intentIdentifiers: seq<string>,
    hiddenPreviewsBodyPlaceholder: Option<string>, categorySummaryFormat: Option<string>, options: bv8)

  const ActionIconGate: seq<Clause> :=
    [AtLeast(IOS, 15, 0), AtLeast(MacOS, 12, 0), AtLeast(MacCatalyst, 15, 0),
     AtLeast(TvOS, 15, 0), AtLeast(WatchOS, 8, 0), AtLeast(VisionOS, 1, 0)]

  function IconToNative(i: ActionIcon): NativeActionIcon {
    match i
    case SystemImageName(n) => IconWithSystemImageName(n)
    case TemplateImageName(n) => IconWithTemplateImageName(n)
  }

  /** `Into<Id<UNNotificationAction>> for Action`: the icon is passed only where the gate allows it. */
  function ActionToNative(a: Action, av: AppleVersion): (r: NativeAction)
    ensures r.identifier == a.identifier && r.title == a.title && r.options == a.options
    ensures r.icon.Some? <==> a.icon.Some? && GateHolds(av, ActionIconGate)
    ensures r.icon.Some? ==> (r.icon.value.IconWithSystemImageName? <==> a.icon.value.SystemImageName?)
                             && r.icon.value.name == a.icon.value.name
  {
    var icon := if GateHolds(av, ActionIconGate) && a.icon.Some? then Some(IconToNative(a.icon.value)) else None;
    NativeAction(a.identifier, a.title, a.options, icon)
  }

  /** `Into<Id<UNNotificationCategory>> for Category`, filling two fresh arrays (left empty on tvOS). */
  method CategoryToNative(c: Category, av: AppleVersion, target: Target) returns (r: NativeCategory)
    ensures r.identifier == c.identifier && r.options == c.options
    ensures r.hiddenPreviewsBodyPlaceholder == c.hiddenPreviewBodyPlaceholder
    ensures r.categorySummaryFormat == c.categorySummaryFormat
    ensures target == TvOSTarget ==> r.intentIdentifiers == [] && r.actions == []
    ensures target != TvOSTarget ==> r.intentIdentifiers == c.intentIdentifiers
    ensures target != TvOSTarget ==>
              |r.actions| == |c.actions|
              && forall i :: 0 <= i < |c.actions| ==> r.actions[i] == ActionToNative(c.actions[i], av)
  {
    var intents: seq<string> := [];
    var actions: seq<NativeAction> := [];
    if target != TvOSTarget {
      for i := 0 to |c.intentIdentifiers|
        invariant intents == c.intentIdentifiers[..i]
      {
        intents := intents + [c.intentIdentifiers[i]];
      }
      for i := 0 to |c.actions|
        invariant |actions| == i
        invariant forall j :: 0 <= j < i ==> actions[j] == ActionToNative(c.actions[j], av)
      {
        actions := actions + [ActionToNative(c.actions[i], av)];
      }
    }
    r := NativeCategory(c.identifier, actions, intents, c.hiddenPreviewBodyPlaceholder,
                        c.categorySummaryFormat, c.options);
  }

  // ----------------------------------------------------------- notifications

  datatype Notification = Notification(
    identifier: string,
    trigger: Option<Trigger>,
    title: Option<string>,
    subtitle: Option<string>,
    body: string,
    attachments: seq<Attachment>,
    userInfo: map<string, string>,
    threadIdentifier: Option<string>,
    categoryIdentifier: Option<string>,
    summaryArgument: Option<string>,
    summaryArgumentCount: Option<nat>,
    launchImageName: Option<string>,
    badge: Option<nat>,
    targetContentIdentifier: Option<string>,
    sound: Option<Sound>,
    interruptionLevel: Option<InterruptionLevel>,
    relevanceScore: Option<F32>,
    filterCriteria: Option<string>)

  /** `UNMutableNotificationContent`: the value each setter received, if called. */
  datatype Content = Content(
    title: Option<string>,
    subtitle: Option<string>,
    body: Option<string>,
    attachments: Option<seq<NativeAttachment>>,
    userInfo: Option<map<string, string>>,
    threadIdentifier: Option<string>,
    categoryIdentifier: Option<string>,
    sound: Option<NativeSound>,
    launchImageName: Option<string>,
    badge: Option<nat>,
    targetContentIdentifier: Option<string>,
    summaryArgumentCount: Option<nat>,
    summaryArgument: Option<string>,
    interruptionLevel: Option<NativeInterruptionLevel>,
    relevanceScore: Option<F32>,
    filterCriteria: Option<string>)

  const EmptyContent := Content(None, None, None, None, None, None, None, None,
                                None, None, None, None, None, None, None, None)

  /** `UNNotificationRequest` */
  datatype Request = Request(identifier: string, content: Content, trigger: Option<NativeTrigger>)

  datatype ConversionError = AttachmentRefused(description: string) | Panicked(message: string)

  const TargetContentGate: seq<Clause> :=
    [AtLeast(IOS, 13, 0), AtLeast(MacOS, 10, 15), AtLeast(MacCatalyst, 13, 1),
     AtLeast(TvOS, 13, 0), AtLeast(WatchOS, 6, 0), AtLeast(VisionOS, 1, 0)]

  /** The summary setters are deprecated: bounded above everywhere except on macOS. */
  const SummaryGate: seq<Clause> :=
    [Between(IOS, 12, 0, 15, 0), AtLeast(MacOS, 10, 14), Between(MacCatalyst, 13, 1, 15, 0),
     Between(TvOS, 12, 0, 15, 0), Between(WatchOS, 5, 0, 8, 0), Between(VisionOS, 1, 0, 1, 0)]

  const InterruptionGate: seq<Clause> :=
    [AtLeast(IOS, 15, 0), AtLeast(MacOS, 12, 0), AtLeast(MacCatalyst, 15, 0),
     AtLeast(TvOS, 15, 0), AtLeast(WatchOS, 8, 0), AtLeast(VisionOS, 1, 0)]

  const FilterCriteriaGate: seq<Clause> :=
    [AtLeast(IOS, 16, 0), AtLeast(MacOS, 13, 0), AtLeast(MacCatalyst, 16, 0),
     AtLeast(TvOS, 16, 0), AtLeast(WatchOS, 9, 0), AtLeast(VisionOS, 1, 0)]

  /** `if let Some(v) = given { content.setX(v) }`: the field after an optional setter call. */
  function SetIfSome<T>(current: Option<T>, given: Option<T>): Option<T> {
    if given.Some? then given else current
  }

  function Gated<T>(gate: bool, v: Option<T>): Option<T> {
    if gate then v else None
  }

  /**
   * The content a conversion produces, field by field, given the converted
   * attachments: what is copied, what is skipped on tvOS or macOS, and what
   * each availability gate lets through.
   */
  function ContentFor(n: Notification, natives: seq<NativeAttachment>, av: AppleVersion, target: Target): Content {
    var notTv := target != TvOSTarget;
    Content(
      title := n.title,
      subtitle := n.subtitle,
      body := Some(n.body),
      attachments := Gated(notTv, Some(natives)),
      userInfo := Gated(notTv, Some(n.userInfo)),
      threadIdentifier := Gated(notTv, n.threadIdentifier),
      categoryIdentifier := Gated(notTv, n.categoryIdentifier),
      sound := Gated(notTv, if n.sound.Some? then Some(SoundToNative(n.sound.value, av, target)) else None),
      launchImageName := Gated(target != TvOSTarget && target != MacOSTarget, n.launchImageName),
      badge := n.badge,
      targetContentIdentifier := Gated(GateHolds(av, TargetContentGate), n.targetContentIdentifier),
      summaryArgumentCount := Gated(GateHolds(av, SummaryGate), n.summaryArgumentCount),
      summaryArgument := Gated(GateHolds(av, SummaryGate), n.summaryArgument),
      interruptionLevel := Gated(GateHolds(av, InterruptionGate),
                                 if n.interruptionLevel.Some? then Some(InterruptionLevelToNative(n.interruptionLevel.value)) else None),
      relevanceScore := Gated(GateHolds(av, InterruptionGate), n.relevanceScore),
      filterCriteria := Gated(GateHolds(av, FilterCriteriaGate), n.filterCriteria))
  }

  function TriggerFor(t: Option<Trigger>): Result<Option<NativeTrigger>, string> {
    if t.None? then Success(None)
    else match TriggerToNative(t.value)
      case Failure(e) => Failure(e)
      case Success(x) => Success(Some(x))
  }

  /**
   * The whole conversion: attachments first (the first refusal aborts),
   * then the trigger (an unsupported cron pattern panics), then the request.
   */
  function Convert(n: Notification, av: AppleVersion, target: Target,
                   framework: AttachmentRequest -> Option<string>): Result<Request, ConversionError>
  {
    var atts := if target == TvOSTarget then Success([]) else ConvertAttachments(n.attachments, av, framework);
    if atts.Failure? then Failure(AttachmentRefused(atts.error))
    else match TriggerFor(n.trigger)
      case Failure(m) => Failure(Panicked(m))
      case Success(t) => Success(Request(n.identifier, ContentFor(n, atts.value, av, target), t))
  }

  /** The attachment loop: converts each attachment in order and stops at the first refusal. */
  method ConvertAttachmentList(atts: seq<Attachment>, av: AppleVersion,
                               framework: AttachmentRequest -> Option<string>)
    returns (r: Result<seq<NativeAttachment>, string>)
    ensures r == ConvertAttachments(atts, av, framework)
  {
    var natives: seq<NativeAttachment> := [];
    var i := 0;
    while i < |atts|
      invariant 0 <= i <= |atts|
      invariant ConvertAttachments(atts[..i], av, framework) == Success(natives)
    {
      var a := AttachmentToNative(atts[i], av, framework);
      assert atts[..i + 1][..i] == atts[..i];
      if a.Failure? {
        RefusalPersists(atts, i + 1, av, framework);
        return Failure(a.error);
      }
      natives := natives + [a.value];
      i := i + 1;
    }
    assert atts[..i] == atts;
    r := Success(natives);
  }

  /** The user-info loop: one `setObject_forKey` per entry of the map. */
  method CopyUserInfo(userInfo: map<string, string>) returns (info: map<string, string>)
    ensures info.Keys == userInfo.Keys
    ensures forall k :: k in info ==> info[k] == userInfo[k]
  {
    info := map[];
    var pending := userInfo.Keys;
    while pending != {}
      invariant pending <= userInfo.Keys
      invariant info == map k | k in userInfo.Keys - pending :: userInfo[k]
      decreases pending
    {
      var k :| k in pending;
      info := info[k := userInfo[k]];
      pending := pending - {k};
    }
  }

  /** The setter calls on a fresh content object, given the converted attachments. */
  method FillContent(n: Notification, natives: seq<NativeAttachment>, av: AppleVersion, target: Target)
    returns (content: Content)
    ensures content == ContentFor(n, natives, av, target)
  {
    content := FillUngatedFields(n, natives, av, target);
    content := FillGatedFields(content, n, GateHolds(av, TargetContentGate), GateHolds(av, SummaryGate),
                               GateHolds(av, InterruptionGate), GateHolds(av, FilterCriteriaGate));
  }

  /** The setters that need no availability check, on a fresh content object. */
  method FillUngatedFields(n: Notification, natives: seq<NativeAttachment>, av: AppleVersion, target: Target)
    returns (content: Content)
    ensures content == ContentFor(n, natives, av, target).(
              targetContentIdentifier := None, summaryArgumentCount := None, summaryArgument := None,
              interruptionLevel := None, relevanceScore := None, filterCriteria := None)
  {
    content := EmptyContent;
    content := content.(title := SetIfSome(content.title, n.title));
    content := content.(subtitle := SetIfSome(content.subtitle, n.subtitle));
    content := content.(body := Some(n.body));
    if target != TvOSTarget {
      content := content.(attachments := Some(natives));
      var info := CopyUserInfo(n.userInfo);
      assert info == n.userInfo;
      content := content.(userInfo := Some(info));
      content := content.(threadIdentifier := SetIfSome(content.threadIdentifier, n.threadIdentifier));
      content := content.(categoryIdentifier := SetIfSome(content.categoryIdentifier, n.categoryIdentifier));
      var sound := if n.sound.Some? then Some(SoundToNative(n.sound.value, av, target)) else None;
      content := content.(sound := SetIfSome(content.sound, sound));
    }
    if target != TvOSTarget && target != MacOSTarget {
      content := content.(launchImageName := SetIfSome(content.launchImageName, n.launchImageName));
    }
    content := content.(badge := SetIfSome(content.badge, n.badge));
  }

  /** The setters behind the four availability gates, given whether each gate holds. */
  method FillGatedFields(c: Content, n: Notification, targetContentOk: bool, summaryOk: bool,
                         interruptionOk: bool, filterOk: bool)
    returns (content: Content)
    requires c.targetContentIdentifier.None? && c.summaryArgumentCount.None? && c.summaryArgument.None?
    requires c.interruptionLevel.None? && c.relevanceScore.None? && c.filterCriteria.None?
    ensures content == c.(
              targetContentIdentifier := Gated(targetContentOk, n.targetContentIdentifier),
              summaryArgumentCount := Gated(summaryOk, n.summaryArgumentCount),
              summaryArgument := Gated(summaryOk, n.summaryArgument),
              interruptionLevel := Gated(interruptionOk, if n.interruptionLevel.Some?
                                                         then Some(InterruptionLevelToNative(n.interruptionLevel.value))
                                                         else None),
              relevanceScore := Gated(interruptionOk, n.relevanceScore),
              filterCriteria := Gated(filterOk, n.filterCriteria))
  {
    content := c;
    if targetContentOk {
      content := content.(targetContentIdentifier := SetIfSome(content.targetContentIdentifier, n.targetContentIdentifier));
    }
    if summaryOk {
      content := content.(summaryArgumentCount := SetIfSome(content.summaryArgumentCount, n.summaryArgumentCount));
      content := content.(summaryArgument := SetIfSome(content.summaryArgument, n.summaryArgument));
    }
    if interruptionOk {
      var level := if n.interruptionLevel.Some? then Some(InterruptionLevelToNative(n.interruptionLevel.value)) else None;
      content := content.(interruptionLevel := SetIfSome(content.interruptionLevel, level));
      content := content.(relevanceScore := SetIfSome(content.relevanceScore, n.relevanceScore));
    }
    if filterOk {
      content := content.(filterCriteria := SetIfSome(content.filterCriteria, n.filterCriteria));
    }
  }

  /**
   * `TryInto<Id<UNNotificationRequest>> for Notification`: the attachment
   * loop (skipped on tvOS) may abort; the content setters follow, then the
   * trigger conversion, which panics on an unsupported cron pattern. The
   * trigger is `TriggerToNative`, the corrected conversion with the day of
   * the month in `setDay`.
   */
  method NotificationToRequest(n: Notification, av: AppleVersion, target: Target,
                               framework: AttachmentRequest -> Option<string>)
    returns (r: Result<Request, ConversionError>)
    ensures r == Convert(n, av, target, framework)
  {
    var natives: seq<NativeAttachment> := [];
    if target != TvOSTarget {
      var converted := ConvertAttachmentList(n.attachments, av, framework);
      if converted.Failure? {
        return Failure(AttachmentRefused(converted.error));
      }
      natives := converted.value;
    }
    var content := FillContent(n, natives, av, target);
    var trigger: Option<NativeTrigger> := None;
    if n.trigger.Some? {
      var t := TriggerToNative(n.trigger.value);
      if t.Failure? {
        return Failure(Panicked(t.error));
      }
      trigger := Some(t.value);
    }
    r := Success(Request(n.identifier, content, trigger));
  }

  /** The body is always set; title, subtitle and badge exactly when given; the launch image never on macOS. */
  lemma ContentCopiesPlainFields(n: Notification, natives: seq<NativeAttachment>, av: AppleVersion, target: Target)
    ensures var c := ContentFor(n, natives, av, target);
            c.body == Some(n.body) && c.title == n.title && c.subtitle == n.subtitle && c.badge == n.badge
            && (target == MacOSTarget ==> c.launchImageName.None?)
            && (target != TvOSTarget ==> c.threadIdentifier == n.threadIdentifier
                                         && c.categoryIdentifier == n.categoryIdentifier
                                         && (c.sound.Some? <==> n.sound.Some?))
  {
  }

  /** A gated field is set only when its gate holds. */
  lemma GatedFieldsNeedTheirGate(n: Notification, natives: seq<NativeAttachment>, av: AppleVersion, target: Target)
    ensures var c := ContentFor(n, natives, av, target);
            (c.targetContentIdentifier.Some? ==> GateHolds(av, TargetContentGate))
            && (c.summaryArgument.Some? || c.summaryArgumentCount.Some? ==> GateHolds(av, SummaryGate))
            && (c.interruptionLevel.Some? || c.relevanceScore.Some? ==> GateHolds(av, InterruptionGate))
            && (c.filterCriteria.Some? ==> GateHolds(av, FilterCriteriaGate))
  {
  }

  /** The summary gate has no upper bound on macOS: any version from 10.14 on passes. */
  lemma SummaryGateOnMacOS(av: AppleVersion)
    requires av.os == MacOS
    ensures GateHolds(av, SummaryGate) <==> Rank(av.major, av.minor) >= Rank(10, 14)
  {
    GateReducesToRunningOs(av, SummaryGate);
    assert ClauseFor(SummaryGate, MacOS) == Some(AtLeast(MacOS, 10, 14));
  }

  /** On iOS the summary gate is the closed range 12.0 ..= 15.0. */
  lemma SummaryGateOnIOS(av: AppleVersion)
    requires av.os == IOS
    ensures GateHolds(av, SummaryGate) <==> Rank(12, 0) <= Rank(av.major, av.minor) <= Rank(15, 0)
  {
    GateReducesToRunningOs(av, SummaryGate);
  }

  /** Every clause of the content gates names a real system. */
  lemma ContentGatesNameRealSystems()
    ensures forall c :: c in TargetContentGate ==> c.os != OtherOS
    ensures forall c :: c in SummaryGate ==> c.os != OtherOS
    ensures forall c :: c in InterruptionGate ==> c.os != OtherOS
    ensures forall c :: c in FilterCriteriaGate ==> c.os != OtherOS
  {
    SixRealClauses(TargetContentGate);
    SixRealClauses(SummaryGate);
    SixRealClauses(InterruptionGate);
    SixRealClauses(FilterCriteriaGate);
  }

  lemma SixRealClauses(gate: seq<Clause>)
    requires |gate| == 6
    requires gate[0].os != OtherOS && gate[1].os != OtherOS && gate[2].os != OtherOS
    requires gate[3].os != OtherOS && gate[4].os != OtherOS && gate[5].os != OtherOS
    ensures forall c :: c in gate ==> c.os != OtherOS
  {
    forall c | c in gate
      ensures c.os != OtherOS
    {
      var i :| 0 <= i < 6 && gate[i] == c;
    }
  }

  /** On a tvOS build the version is `None`, so no gated field is ever set. */
  lemma TvOSBuildSetsNoGatedField(n: Notification, natives: seq<NativeAttachment>, osMajor: int, osMinor: int)
    ensures var c := ContentFor(n, natives, AppleVersionFor(TvOSTarget, osMajor, osMinor), TvOSTarget);
            c.targetContentIdentifier.None? && c.summaryArgument.None? && c.summaryArgumentCount.None?
            && c.interruptionLevel.None? && c.relevanceScore.None? && c.filterCriteria.None?
            && c.attachments.None? && c.userInfo.None? && c.sound.None?
  {
    var av := AppleVersionFor(TvOSTarget, osMajor, osMinor);
    ContentGatesNameRealSystems();
    NoGateHoldsWithoutOs(av, TargetContentGate);
    NoGateHoldsWithoutOs(av, SummaryGate);
    NoGateHoldsWithoutOs(av, InterruptionGate);
    NoGateHoldsWithoutOs(av, FilterCriteriaGate);
  }

  /** The first refused attachment aborts the whole conversion with its refusal. */
  lemma RefusedAttachmentAborts(n: Notification, av: AppleVersion, target: Target,
                                framework: AttachmentRequest -> Option<string>, i: nat)
    requires target != TvOSTarget
    requires i < |n.attachments| && Refused(n.attachments[i], av, framework)
    requires forall j :: 0 <= j < i ==> !Refused(n.attachments[j], av, framework)
    ensures Convert(n, av, target, framework)
              == Failure(AttachmentRefused(framework(AttachmentRequestOf(n.attachments[i], av)).value))
  {
    ConvertAttachmentsFirstRefusal(n.attachments, av, framework);
    var k :| 0 <= k < |n.attachments| && Refused(n.attachments[k], av, framework)
             && (forall j :: 0 <= j < k ==> !Refused(n.attachments[j], av, framework))
             && ConvertAttachments(n.attachments, av, framework).error
                == framework(AttachmentRequestOf(n.attachments[k], av)).value;
    assert k == i;
  }
}
