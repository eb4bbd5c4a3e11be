/** The guild queue as the track buttons see it. The queue belongs to the
    player library; this stand-in keeps only what the handlers read (the
    current track, the paused flag, upcoming tracks and history) and records
    every mutation the handlers issue on it. */
module GuildQueue {
  import opened JsValues
  import opened BaseInteraction

  /** A mutation issued on the queue. */
  datatype QueueCall = SkipCall | PauseCall | ResumeCall | BackCall

  class Queue {
    var currentTrack: Option<Track>
    var paused: bool
    var upcoming: seq<Track>
    var history: seq<Track>
    /** The mutations issued on this queue, oldest first. */
    var calls: seq<QueueCall>

    constructor (currentTrack: Option<Track>, paused: bool, upcoming: seq<Track>, history: seq<Track>)
      ensures this.currentTrack == currentTrack && this.paused == paused
      ensures this.upcoming == upcoming && this.history == history && calls == []
    {
      this.currentTrack := currentTrack;
      this.paused := paused;
      this.upcoming := upcoming;
      this.history := history;
      calls := [];
    }

    /** `queue.node.skip()`: the current track goes to history and the next
        upcoming track, if any, becomes current. */
    method Skip()
      modifies this
      ensures calls == old(calls) + [SkipCall] && paused == old(paused)
      ensures history == old(history) + (if old(currentTrack).Some? then [old(currentTrack).value] else [])
      ensures old(upcoming) != [] ==> currentTrack == Some(old(upcoming)[0]) && upcoming == old(upcoming)[1..]
      ensures old(upcoming) == [] ==> currentTrack == None && upcoming == []
    {
      if currentTrack.Some? {
        history := history + [currentTrack.value];
      }
      if upcoming != [] {
        currentTrack := Some(upcoming[0]);
        upcoming := upcoming[1..];
      } else {
        currentTrack := None;
      }
      calls := calls + [SkipCall];
    }

    /** `queue.node.pause()` */
    method Pause()
      modifies this
      ensures paused && calls == old(calls) + [PauseCall]
      ensures currentTrack == old(currentTrack) && upcoming == old(upcoming) && history == old(history)
    {
      paused := true;
      calls := calls + [PauseCall];
    }

    /** `queue.node.resume()` */
    method Resume()
      modifies this
      ensures !paused && calls == old(calls) + [ResumeCall]
      ensures currentTrack == old(currentTrack) && upcoming == old(upcoming) && history == old(history)
    {
      paused := false;
      calls := calls + [ResumeCall];
    }

    /** `history.back()`: the most recent history track becomes current and
        the interrupted track goes back to the front of the queue. */
    method Back()
      requires history != []
      modifies this
      ensures calls == old(calls) + [BackCall] && paused == old(paused)
      ensures currentTrack == Some(old(history)[|old(history)| - 1])
      ensures history == old(history)[..|old(history)| - 1]
      ensures upcoming == (if old(currentTrack).Some? then [old(currentTrack).value] else []) + old(upcoming)
    {
      if currentTrack.Some? {
        upcoming := [currentTrack.value] + upcoming;
      }
      currentTrack := Some(history[|history| - 1]);
      history := history[..|history| - 1];
      calls := calls + [BackCall];
    }
  }

  /** What the validators learn from the interaction itself. */
  datatype InteractionFacts = InteractionFacts(
    inVoiceChannel: bool, sameVoiceChannel: bool, channelViewable: bool, validGuildId: bool)

  /** The validation context of a button press on a guild whose queue may be missing. */
  function ContextFor(facts: InteractionFacts, queue: Queue?): (ctx: ValidationContext)
    reads queue
    ensures ctx.queueExists <==> queue != null
    ensures ctx.hasCurrentTrack <==> queue != null && queue.currentTrack.Some?
    ensures ctx.inVoiceChannel == facts.inVoiceChannel && ctx.sameVoiceChannel == facts.sameVoiceChannel
  {
    ValidationContext(
      facts.inVoiceChannel, facts.sameVoiceChannel,
      queue != null, queue != null && queue.currentTrack.Some?,
      facts.channelViewable, facts.validGuildId)
  }

  /** The checks every track button runs, in this order. */
  const TrackButtonValidators: seq<Validator> := [InVoiceChannel, SameVoiceChannel, QueueExists, QueueCurrentTrack]

  /** Once the track-button checks pass, the queue exists and has a current track. */
  lemma PassedChecksGiveCurrentTrack(ctx: ValidationContext)
    requires FirstFailure(ctx, TrackButtonValidators).None?
    ensures ctx.inVoiceChannel && ctx.sameVoiceChannel && ctx.queueExists && ctx.hasCurrentTrack
  {
    assert Check(ctx, TrackButtonValidators[0]).Pass?;
    assert Check(ctx, TrackButtonValidators[1]).Pass?;
    assert Check(ctx, TrackButtonValidators[2]).Pass?;
    assert Check(ctx, TrackButtonValidators[3]).Pass?;
  }

  /** Conversely, when all four facts hold, every track-button check passes. */
  lemma FactsPassTrackButtonChecks(ctx: ValidationContext)
    requires ctx.inVoiceChannel && ctx.sameVoiceChannel && ctx.queueExists && ctx.hasCurrentTrack
    ensures FirstFailure(ctx, TrackButtonValidators).None?
  {
    assert AllPass(ctx, TrackButtonValidators);
  }

  /** The reply a track button sends. */
  datatype ButtonReply =
    | ValidationFailed(error: ValidationError)
    | TrackNotPlayingAnymore
    | CannotSkipPausedTrack
    | TrackHistoryEmpty
    | Skipped(skippedTrack: Track)
    | PauseResumed(wording: Key, track: Track)
    | TrackReplayed(recoveredTrack: Track)

  /** A press is stale when the button was rendered for a track that is no
      longer the current one (or carries no track id at all). */
  predicate IsStale(currentTrack: Track, referenceId: Option<string>)
  {
    referenceId != Some(currentTrack.id)
  }
}
