/** Behaviour shared by every interaction handler: running validators, and
    choosing the text shown for a track (duration, link, thumbnail, progress bar,
    page footer). Translation is an opaque function from message keys to text. */
module BaseInteraction {
  import opened JsValues
  import Paging

  // ---------------------------------------------------------------------------
  // Validators
  // ---------------------------------------------------------------------------

  /** The validators a handler can ask for. */
  datatype Validator =
    | InVoiceChannel        // the user is in a voice channel
    | SameVoiceChannel      // ... the same one as the bot
    | QueueExists           // the guild has a queue
    | QueueCurrentTrack     // ... with a current track
    | ChannelViewable       // the bot may view the channel
    | ValidGuildId          // the guild may run system commands

  /** The facts the validators inspect, one per validator. */
  datatype ValidationContext = ValidationContext(
    inVoiceChannel: bool,
    sameVoiceChannel: bool,
    queueExists: bool,
    hasCurrentTrack: bool,
    channelViewable: bool,
    validGuildId: bool)

  /** `InteractionValidationError`, identified by the validator that raised it. */
  datatype ValidationError = InteractionValidationError(failed: Validator)

  datatype Outcome = Pass | Fail(error: ValidationError)

  /** One validator: it returns normally when its fact holds and throws otherwise. */
  function Check(ctx: ValidationContext, v: Validator): (r: Outcome)
    ensures r.Fail? ==> r.error.failed == v
  {
    var holds := match v
      case InVoiceChannel => ctx.inVoiceChannel
      case SameVoiceChannel => ctx.sameVoiceChannel
      case QueueExists => ctx.queueExists
      case QueueCurrentTrack => ctx.hasCurrentTrack
      case ChannelViewable => ctx.channelViewable
      case ValidGuildId => ctx.validGuildId;
    if holds then Pass else Fail(InteractionValidationError(v))
  }

  ghost predicate AllPass(ctx: ValidationContext, vs: seq<Validator>)
  {
    forall i :: 0 <= i < |vs| ==> Check(ctx, vs[i]).Pass?
  }

  /** The error of the first validator in `vs` that fails, if any. */
  function FirstFailure(ctx: ValidationContext, vs: seq<Validator>): (r: Option<ValidationError>)
    ensures r.None? <==> AllPass(ctx, vs)
    ensures r.Some? ==> r.value.failed in vs && Check(ctx, r.value.failed) == Fail(r.value)
  {
    if vs == [] then None
    else if Check(ctx, vs[0]).Fail? then Some(Check(ctx, vs[0]).error)
    else
      assert forall i :: 1 <= i < |vs| ==> vs[i] == vs[1..][i - 1];
      FirstFailure(ctx, vs[1..])
  }

  /** `validators ? validators : this.validators`: a supplied list, even an
      empty one (an array is always truthy), replaces the instance's default list. */
  function ValidatorList(supplied: Option<seq<Validator>>, defaults: seq<Validator>): (list: seq<Validator>)
    ensures supplied.Some? ==> list == supplied.value
    ensures supplied.None? ==> list == defaults
  {
    supplied.OrElse(defaults)
  }

  /** Runs the chosen validators one after the other; the first one that throws
      ends the run. `ran` lists the validators that were called, in call order. */
  method RunValidators(ctx: ValidationContext, supplied: Option<seq<Validator>>, defaults: seq<Validator>)
    returns (ran: seq<Validator>, outcome: Outcome)
    ensures var list := ValidatorList(supplied, defaults);
      && |ran| <= |list| && ran == list[..|ran|]
      && (outcome.Pass? <==> AllPass(ctx, list))
      && (outcome.Pass? ==> ran == list)
      && (outcome.Fail? ==> |ran| > 0 && Check(ctx, ran[|ran| - 1]) == outcome && AllPass(ctx, ran[..|ran| - 1]))
      && (outcome.Pass? <==> FirstFailure(ctx, list).None?)
      && (outcome.Fail? ==> FirstFailure(ctx, list) == Some(outcome.error))
  {
    var list := ValidatorList(supplied, defaults);
    ran := [];
    var i := 0;
    while i < |list|
      invariant 0 <= i <= |list|
      invariant ran == list[..i]
      invariant AllPass(ctx, ran)
      invariant FirstFailure(ctx, list) == FirstFailure(ctx, list[i..])
    {
      assert list[i..][0] == list[i] && list[i..][1..] == list[i + 1..];
      var result := Check(ctx, list[i]);
      ran := ran + [list[i]];
      if result.Fail? {
        assert ran[..|ran| - 1] == list[..i];
        return ran, result;
      }
      i := i + 1;
    }
    assert ran == list;
    outcome := Pass;
  }

  // ---------------------------------------------------------------------------
  // Tracks and display text
  // ---------------------------------------------------------------------------

  /** The parts of a player track that the display helpers read. */
  datatype Track = Track(
    id: string,
    title: Option<string>,
    url: Option<string>,
    rawUrl: Option<string>,
    duration: string,            // formatted, e.g. "3:25"
    rawDuration: Option<int>,    // Number(raw.duration); None when that is NaN
    live: bool,                  // truthiness of raw.live
    source: string,              // extractor name, e.g. "youtube"
    thumbnail: string,
    rawThumbnail: JsValue,
    durationMs: int)

  /** Translation keys, with the interpolated values the model keeps. */
  datatype Key =
    | UnavailableTrackTitle
    | UnavailableTrackUrl
    | UnavailableDuration
    | PlayingLive
    | FooterPageNumber(page: int, pageCount: nat, count: nat)
    | EmptyQueue
    | NoMorePages
    | PaginationError
    | EstimatedReallyLongTime
    | EstimatedDuration(durationMs: int)
    | Paused
    | Resumed

  /** The server-locale translator. */
  type Translator = Key -> string

  /** The configured embed options the helpers read. */
  datatype EmbedOptions = EmbedOptions(liveTrackIcon: string, fallbackThumbnailUrl: string)

  /** A duration counts as zero when the raw number is 0 or the text is "0:00". */
  predicate HasZeroDuration(track: Track)
  {
    track.rawDuration == Some(0) || track.duration == "0:00"
  }

  function LiveLabel(options: EmbedOptions): string
  {
    "**" + options.liveTrackIcon + " `LIVE`**"
  }

  function BoldDuration(track: Track): string
  {
    "**`" + track.duration + "`**"
  }

  /** Duration text: a live track shows the LIVE label whatever its duration,
      otherwise a zero duration shows nothing, otherwise the bold duration. */
  function FormattedDuration(track: Track, options: EmbedOptions): (r: string)
    ensures track.live ==> r == LiveLabel(options)
    ensures !track.live && HasZeroDuration(track) ==> r == ""
    ensures !track.live && !HasZeroDuration(track) ==> r == BoldDuration(track)
    ensures r == "" <==> !track.live && HasZeroDuration(track)
  {
    var durationFormat := if HasZeroDuration(track) then "" else BoldDuration(track);
    if track.live then LiveLabel(options) else durationFormat
  }

  /** `track.title ?? translator('unavailableTrackTitle')` */
  function ResolvedTitle(track: Track, tr: Translator): (title: string)
    ensures track.title.Some? ==> title == track.title.value
    ensures track.title.None? ==> title == tr(UnavailableTrackTitle)
  {
    track.title.OrElse(tr(UnavailableTrackTitle))
  }

  /** `track.url ?? track.raw.url` */
  function ResolvedUrl(track: Track): (url: Option<string>)
    ensures track.url.Some? ==> url == track.url
    ensures track.url.None? ==> url == track.rawUrl
  {
    if track.url.Some? then track.url else track.rawUrl
  }

  /** The markdown link to a track, or the "unavailable URL" text when the
      resolved title or URL is missing or empty. */
  function FormattedTrackUrl(track: Track, tr: Translator): (r: string)
    ensures var title := ResolvedTitle(track, tr); var url := ResolvedUrl(track);
      && (title == "" || url.None? || url.value == "" ==> r == tr(UnavailableTrackUrl))
      && (title != "" && url.Some? && url.value != "" ==> r == "**[" + title + "](" + url.value + ")**")
  {
    var title := ResolvedTitle(track, tr);
    var url := ResolvedUrl(track);
    if title == "" || url.None? || url.value == "" then tr(UnavailableTrackUrl)
    else "**[" + title + "](" + url.value + ")**"
  }

  /** The duration text and the link text, separated by exactly one space. */
  function DisplayTrackDurationAndUrl(track: Track, options: EmbedOptions, tr: Translator): (r: string)
    ensures var d := FormattedDuration(track, options);
      && |r| == |d| + 1 + |FormattedTrackUrl(track, tr)|
      && r[..|d|] == d && r[|d|] == ' ' && r[|d| + 1..] == FormattedTrackUrl(track, tr)
  {
    var d := FormattedDuration(track, options);
    var u := FormattedTrackUrl(track, tr);
    var r := d + " " + u;
    assert r[..|d|] == d && r[|d| + 1..] == u;
    r
  }

  /** Thumbnail selection AS WRITTEN. For a YouTube track it reads `.url` of
      `raw.thumbnail` and of `thumbnail`; the latter is a string, so that
      branch yields undefined instead of a URL. */
  function TrackThumbnailUrlAsWritten(track: Track, options: EmbedOptions): (r: JsValue)
    ensures track.source != "youtube" && Truthy(track.rawThumbnail) ==> r == track.rawThumbnail
    ensures track.source == "youtube" && Truthy(track.rawThumbnail) ==> r == UrlProperty(track.rawThumbnail)
  {
    if track.source == "youtube" then
      if Truthy(track.rawThumbnail) then UrlProperty(track.rawThumbnail)
      else if track.thumbnail != "" && !EndsWith(track.thumbnail, "maxresdefault.jpg") then
        UrlProperty(Str(track.thumbnail))
      else Str(options.fallbackThumbnailUrl)
    else
      if Truthy(track.rawThumbnail) then track.rawThumbnail
      else if track.thumbnail != "" then Str(track.thumbnail)
      else Str(options.fallbackThumbnailUrl)
  }

  /** A YouTube track without a raw thumbnail and with a high-quality (not
      maxresdefault) thumbnail gets no thumbnail URL at all. */
  lemma YouTubeThumbnailIsLost()
    ensures var track := Track("t1", Some("Song"), Some("https://youtu.be/x"), None, "3:25", Some(205000),
                               false, "youtube", "https://i.ytimg.com/vi/x/hqdefault.jpg", Undefined, 205000);
            TrackThumbnailUrlAsWritten(track, EmbedOptions("L", "https://fallback.png")) == Undefined
  {
    var t := "https://i.ytimg.com/vi/x/hqdefault.jpg";
    assert |t| == 38;
    assert t[|t| - 17..][0] == 'i' != "maxresdefault.jpg"[0];
  }

  predicate EndsWith(s: string, suffix: string)
  {
    |suffix| <= |s| && s[|s| - |suffix|..] == suffix
  }

  /** The track's own thumbnail is set and, for YouTube, is not a maxresdefault image. */
  predicate UsableThumbnail(track: Track)
  {
    track.thumbnail != "" && (track.source == "youtube" ==> !EndsWith(track.thumbnail, "maxresdefault.jpg"))
  }

  /** The branch that loses the thumbnail: a YouTube track without a raw
      thumbnail whose own thumbnail is set and is not a maxresdefault image. */
  predicate LostThumbnailBranch(track: Track)
  {
    track.source == "youtube" && !Truthy(track.rawThumbnail) && UsableThumbnail(track)
  }

  /** Thumbnail selection as intended: identical to the selection as written
      except in the one branch that read `.url` of a string, which now yields
      the thumbnail string itself. */
  function TrackThumbnailUrl(track: Track, options: EmbedOptions): (r: JsValue)
    ensures !LostThumbnailBranch(track) ==> r == TrackThumbnailUrlAsWritten(track, options)
    ensures LostThumbnailBranch(track) ==>
      && r == Str(track.thumbnail) && Truthy(r)
      && TrackThumbnailUrlAsWritten(track, options) == Undefined
    ensures track.source == "youtube" && !Truthy(track.rawThumbnail) ==>
      r.Str? && (!EndsWith(r.text, "maxresdefault.jpg") || r.text == options.fallbackThumbnailUrl)
    ensures !Truthy(track.rawThumbnail) && options.fallbackThumbnailUrl != "" ==> Truthy(r)
    ensures !Truthy(track.rawThumbnail) ==>
      r == (if UsableThumbnail(track) then Str(track.thumbnail) else Str(options.fallbackThumbnailUrl))
  {
    if track.source == "youtube" then
      if Truthy(track.rawThumbnail) then UrlProperty(track.rawThumbnail)
      else if track.thumbnail != "" && !EndsWith(track.thumbnail, "maxresdefault.jpg") then
        Str(track.thumbnail)
      else Str(options.fallbackThumbnailUrl)
    else
      if Truthy(track.rawThumbnail) then track.rawThumbnail
      else if track.thumbnail != "" then Str(track.thumbnail)
      else Str(options.fallbackThumbnailUrl)
  }

  /** Footer page text: the displayed page is `currentPage + 1` out of the page
      count of `trackCount` entries (at least one page). */
  function FooterDisplayPageInfo(currentPage: nat, trackCount: nat): (k: Key)
    ensures k.FooterPageNumber? && k.page == currentPage + 1 && k.count == trackCount
    ensures k.pageCount >= 1
    ensures trackCount == 0 ==> k.pageCount == 1
    ensures trackCount > 0 ==> (k.pageCount - 1) * 10 < trackCount <= k.pageCount * 10
    ensures currentPage < k.pageCount ==> 1 <= k.page <= k.pageCount
  {
    FooterPageNumber(currentPage + 1, Paging.PageCount(trackCount), trackCount)
  }

  // ---------------------------------------------------------------------------
  // Progress bar
  // ---------------------------------------------------------------------------

  /** `playerOptions.progressBar` as configured; every entry may be absent. */
  datatype ProgressBarConfig = ProgressBarConfig(
    length: Option<nat>, timecodes: Option<bool>, indicator: Option<string>,
    leftChar: Option<string>, rightChar: Option<string>)

  datatype ProgressBarOptions = ProgressBarOptions(
    queue: bool, length: nat, timecodes: bool, indicator: string, leftChar: string, rightChar: string)

  /** The options handed to the player's progress-bar renderer: the configured
      values, with the defaults 12, false, a radio button and a bar character. */
  function ResolvedProgressBarOptions(config: ProgressBarConfig): (o: ProgressBarOptions)
    ensures !o.queue
    ensures config.length.None? ==> o.length == 12
    ensures config.length.Some? ==> o.length == config.length.value
    ensures config.timecodes.None? ==> !o.timecodes
    ensures config.timecodes.Some? ==> o.timecodes == config.timecodes.value
    ensures config.indicator.Some? ==> o.indicator == config.indicator.value
    ensures config.leftChar.Some? ==> o.leftChar == config.leftChar.value
    ensures config.rightChar.Some? ==> o.rightChar == config.rightChar.value
    ensures config.indicator.None? ==> o.indicator == "\U{1F518}"
    ensures config.leftChar.None? ==> o.leftChar == "▬"
    ensures config.rightChar.None? ==> o.rightChar == "▬"
  {
    ProgressBarOptions(
      false,
      config.length.OrElse(12),
      config.timecodes.OrElse(false),
      config.indicator.OrElse("\U{1F518}"),
      config.leftChar.OrElse("▬"),
      config.rightChar.OrElse("▬"))
  }

  /** The player's playback timestamp labels. */
  datatype Timestamp = Timestamp(currentLabel: string, totalLabel: string)

  /** Progress-bar text: live beats zero duration, which beats the bar itself.
      With no current track neither override applies. */
  method GetDisplayQueueProgressBar(
    currentTrack: Option<Track>, timestamp: Timestamp, config: ProgressBarConfig,
    createProgressBar: ProgressBarOptions -> string, tr: Translator)
    returns (progressBar: string)
    ensures currentTrack.Some? && currentTrack.value.live ==> progressBar == tr(PlayingLive)
    ensures currentTrack.Some? && !currentTrack.value.live && HasZeroDuration(currentTrack.value)
            ==> progressBar == tr(UnavailableDuration)
    ensures currentTrack.None? || (!currentTrack.value.live && !HasZeroDuration(currentTrack.value))
            ==> progressBar == "**`" + timestamp.currentLabel + "`** "
                               + createProgressBar(ResolvedProgressBarOptions(config))
                               + " **`" + timestamp.totalLabel + "`**"
  {
    progressBar := "**`" + timestamp.currentLabel + "`** "
                   + createProgressBar(ResolvedProgressBarOptions(config))
                   + " **`" + timestamp.totalLabel + "`**";
    if currentTrack.Some? && HasZeroDuration(currentTrack.value) {
      progressBar := tr(UnavailableDuration);
    }
    if currentTrack.Some? && currentTrack.value.live {
      progressBar := tr(PlayingLive);
    }
  }
}
