/**
 * The two pieces of the external media controller that are plain data
 * transformations: the repair of Apple Music's combined "artist — album" field,
 * and the translation of front-end media commands into the commands of the
 * system media session library (`smtc_suite`, which is not part of this model;
 * its enums are reconstructed from the variants used here).
 */
module ExternalMedia {
  import opened Wrappers
  import opened Text

  /** Apple Music reports "artist — album" (an em dash between two spaces) as the artist. */
  const ArtistAlbumSeparator: string := " \U{2014} "

  datatype RepeatMode = Off | One | All

  datatype TextConversionMode =
    | ConversionOff
    | TraditionalToSimplified
    | SimplifiedToTraditional
    | SimplifiedToTaiwan
    | TaiwanToSimplified
    | SimplifiedToHongKong
    | HongKongToSimplified

  /** `FrontendNowPlayingInfo`; the cover is already base64 text here. */
  datatype NowPlayingInfo = NowPlayingInfo(
    title: Option<string>,
    artist: Option<string>,
    albumTitle: Option<string>,
    durationMs: Option<nat>,
    positionMs: Option<nat>,
    isPlaying: Option<bool>,
    isShuffleActive: Option<bool>,
    repeatMode: Option<RepeatMode>,
    canPlay: Option<bool>,
    canPause: Option<bool>,
    canSkipNext: Option<bool>,
    canSkipPrevious: Option<bool>,
    coverData: Option<string>,
    coverDataHash: Option<nat>)

  // ----- Apple Music artist field -----

  predicate IsBlank(album: Option<string>) {
    album.None? || album.value == ""
  }

  /**
   * `parse_apple_music_field`: an artist of the form "artist — album" is cut at
   * the first separator; the artist keeps the trimmed first part, and the trimmed
   * second part becomes the album when no album is known. Nothing else changes.
   */
  function ParseAppleMusicField(info: NowPlayingInfo): (r: NowPlayingInfo)
    ensures r.(artist := info.artist, albumTitle := info.albumTitle) == info
    ensures info.artist.None? ==> r == info
    ensures info.artist.Some? && SplitOnce(info.artist.value, ArtistAlbumSeparator).None? ==> r == info
    ensures info.artist.Some? && SplitOnce(info.artist.value, ArtistAlbumSeparator).Some? ==>
      var (artist, album) := SplitOnce(info.artist.value, ArtistAlbumSeparator).value;
      info.artist.value == artist + ArtistAlbumSeparator + album &&
      r.artist == Some(Trim(artist)) &&
      r.albumTitle == if IsBlank(info.albumTitle) then Some(Trim(album)) else info.albumTitle
  {
    match info.artist
    case None => info
    case Some(field) =>
      match SplitOnce(field, ArtistAlbumSeparator)
      case None => info
      case Some((artist, album)) =>
        var info' := info.(artist := Some(Trim(artist)));
        if IsBlank(info.albumTitle) then info'.(albumTitle := Some(Trim(album))) else info'
  }

  /** The artist kept after a split contains no further separator. */
  lemma TrimmedArtistHasNoSeparator(field: string)
    requires SplitOnce(field, ArtistAlbumSeparator).Some?
    ensures SplitOnce(Trim(SplitOnce(field, ArtistAlbumSeparator).value.0), ArtistAlbumSeparator).None?
  {
    var artist := SplitOnce(field, ArtistAlbumSeparator).value.0;
    var t := Trim(artist);
    var i := TrimInfix(artist);
    assert t == field[i..i + |t|];
    NoFindInPiece(field, ArtistAlbumSeparator, i, t);
  }

  /** Repairing the field twice is the same as repairing it once. */
  lemma ParseAppleMusicFieldIdempotent(info: NowPlayingInfo)
    ensures ParseAppleMusicField(ParseAppleMusicField(info)) == ParseAppleMusicField(info)
  {
    if info.artist.Some? && SplitOnce(info.artist.value, ArtistAlbumSeparator).Some? {
      TrimmedArtistHasNoSeparator(info.artist.value);
    }
  }

  // ----- command mapping -----

  /** The media session library's repeat modes and text conversion modes. */
  datatype SuiteRepeatMode = SuiteOff | SuiteOne | SuiteAll

  datatype SuiteTextConversionMode =
    | SuiteConversionOff
    | SuiteTraditionalToSimplified
    | SuiteSimplifiedToTraditional
    | SuiteSimplifiedToTaiwan
    | SuiteTaiwanToSimplified
    | SuiteSimplifiedToHongKong
    | SuiteHongKongToSimplified

  /** `smtc_suite::SmtcControlCommand`; the volume is a real number here. */
  datatype SuiteControl =
    | SetShuffle(isActive: bool)
    | SetRepeatMode(mode: SuiteRepeatMode)
    | Play
    | Pause
    | SkipNext
    | SkipPrevious
    | SeekTo(timeMs: nat)
    | SetVolume(volume: real)

  /** `smtc_suite::MediaCommand`. */
  datatype SuiteCommand =
    | SelectSession(targetId: string)
    | SetTextConversion(mode: SuiteTextConversionMode)
    | Control(control: SuiteControl)
    | StartAudioCapture
    | StopAudioCapture
    | SetHighFrequencyProgressUpdates(enabled: bool)

  /** The commands the front end sends (`MediaCommand`). */
  datatype MediaCommand =
    | SelectSessionCommand(sessionId: string)
    | SetTextConversionCommand(conversion: TextConversionMode)
    | SetShuffleCommand(isActive: bool)
    | SetRepeatModeCommand(repeat: RepeatMode)
    | PlayCommand
    | PauseCommand
    | SkipNextCommand
    | SkipPreviousCommand
    | SeekToCommand(timeMs: nat)
    | SetVolumeCommand(volume: real)
    | StartAudioVisualization
    | StopAudioVisualization
    | SetHighFrequencyProgressUpdatesCommand(enabled: bool)

  function ToSuiteRepeatMode(m: RepeatMode): SuiteRepeatMode {
    match m
    case Off => SuiteOff
    case One => SuiteOne
    case All => SuiteAll
  }

  /** The reverse mapping, applied to the repeat mode of a reported track. */
  function FromSuiteRepeatMode(m: SuiteRepeatMode): RepeatMode {
    match m
    case SuiteOff => Off
    case SuiteOne => One
    case SuiteAll => All
  }

  /** The two repeat-mode mappings are inverse to each other. */
  lemma RepeatModeRoundTrip(m: RepeatMode, s: SuiteRepeatMode)
    ensures FromSuiteRepeatMode(ToSuiteRepeatMode(m)) == m
    ensures ToSuiteRepeatMode(FromSuiteRepeatMode(s)) == s
  {
  }

  function ToSuiteTextConversion(m: TextConversionMode): SuiteTextConversionMode {
    match m
    case ConversionOff => SuiteConversionOff
    case TraditionalToSimplified => SuiteTraditionalToSimplified
    case SimplifiedToTraditional => SuiteSimplifiedToTraditional
    case SimplifiedToTaiwan => SuiteSimplifiedToTaiwan
    case TaiwanToSimplified => SuiteTaiwanToSimplified
    case SimplifiedToHongKong => SuiteSimplifiedToHongKong
    case HongKongToSimplified => SuiteHongKongToSimplified
  }

  /** Every suite conversion mode is reached by exactly one front-end mode. */
  lemma TextConversionBijective(m1: TextConversionMode, m2: TextConversionMode, s: SuiteTextConversionMode)
    ensures ToSuiteTextConversion(m1) == ToSuiteTextConversion(m2) ==> m1 == m2
    ensures exists m :: ToSuiteTextConversion(m) == s
  {
    match s
    case SuiteConversionOff => assert ToSuiteTextConversion(ConversionOff) == s;
    case SuiteTraditionalToSimplified => assert ToSuiteTextConversion(TraditionalToSimplified) == s;
    case SuiteSimplifiedToTraditional => assert ToSuiteTextConversion(SimplifiedToTraditional) == s;
    case SuiteSimplifiedToTaiwan => assert ToSuiteTextConversion(SimplifiedToTaiwan) == s;
    case SuiteTaiwanToSimplified => assert ToSuiteTextConversion(TaiwanToSimplified) == s;
    case SuiteSimplifiedToHongKong => assert ToSuiteTextConversion(SimplifiedToHongKong) == s;
    case SuiteHongKongToSimplified => assert ToSuiteTextConversion(HongKongToSimplified) == s;
  }

  /** `f32::clamp`, on real numbers. */
  function Clamp(v: real, lo: real, hi: real): (r: real)
    requires lo <= hi
    ensures lo <= r <= hi
    ensures lo <= v <= hi ==> r == v
    ensures v < lo ==> r == lo
    ensures hi < v ==> r == hi
  {
    if v < lo then lo else if hi < v then hi else v
  }

  /** The session id the front end sends when no session is selected. */
  const NullSessionId: string := "null"

  /**
   * `control_external_media`'s translation of a front-end command: "null" selects
   * no session, the volume is clamped into [0, 1], and every other command is
   * passed on with its argument.
   */
  function ToSuiteCommand(c: MediaCommand): (r: SuiteCommand)
    ensures c.SelectSessionCommand? ==>
      r.SelectSession? && r.targetId != NullSessionId &&
      (c.sessionId == NullSessionId ==> r.targetId == "") &&
      (c.sessionId != NullSessionId ==> r.targetId == c.sessionId)
    ensures c.SetVolumeCommand? ==>
      r.Control? && r.control.SetVolume? && 0.0 <= r.control.volume <= 1.0 &&
      (0.0 <= c.volume <= 1.0 ==> r.control.volume == c.volume)
    ensures c.SetRepeatModeCommand? ==>
      r.Control? && r.control.SetRepeatMode? && FromSuiteRepeatMode(r.control.mode) == c.repeat
    ensures c.SeekToCommand? ==> r == Control(SeekTo(c.timeMs))
  {
    match c
    case SelectSessionCommand(id) => SelectSession(if id == NullSessionId then "" else id)
    case SetTextConversionCommand(m) => SetTextConversion(ToSuiteTextConversion(m))
    case SetShuffleCommand(active) => Control(SetShuffle(active))
    case SetRepeatModeCommand(m) => Control(SetRepeatMode(ToSuiteRepeatMode(m)))
    case PlayCommand => Control(Play)
    case PauseCommand => Control(Pause)
    case SkipNextCommand => Control(SkipNext)
    case SkipPreviousCommand => Control(SkipPrevious)
    case SeekToCommand(t) => Control(SeekTo(t))
    case SetVolumeCommand(v) => Control(SetVolume(Clamp(v, 0.0, 1.0)))
    case StartAudioVisualization => StartAudioCapture
    case StopAudioVisualization => StopAudioCapture
    case SetHighFrequencyProgressUpdatesCommand(on) => SetHighFrequencyProgressUpdates(on)
  }
}
