/** The previous-track button on a now-playing message. */
module PreviousButton {
  import opened JsValues
  import opened BaseInteraction
  import opened GuildQueue

  /** The checks, then the stale-press guard, the paused guard and the
      empty-history guard, and only then one step back through history. The
      reply names the track that is current after the step. */
  method Execute(facts: InteractionFacts, queue: Queue?, referenceId: Option<string>) returns (reply: ButtonReply)
    modifies queue
    ensures var failure := old(FirstFailure(ContextFor(facts, queue), TrackButtonValidators));
      && (reply.ValidationFailed? <==> failure.Some?)
      && (reply.ValidationFailed? ==> reply.error == failure.value && (queue != null ==> unchanged(queue)))
      && (failure.None? ==> queue != null && old(queue.currentTrack).Some?)
    ensures queue != null && old(queue.currentTrack).Some? && !reply.ValidationFailed? ==>
      var current := old(queue.currentTrack).value;
      var proceeds := !IsStale(current, referenceId) && !old(queue.paused);
      && (IsStale(current, referenceId) ==> reply == TrackNotPlayingAnymore && unchanged(queue))
      && (!IsStale(current, referenceId) && old(queue.paused) ==> reply == CannotSkipPausedTrack && unchanged(queue))
      && (proceeds && old(queue.history) == [] ==> reply == TrackHistoryEmpty && unchanged(queue))
      && (proceeds && old(queue.history) != [] ==>
            && queue.calls == old(queue.calls) + [BackCall]
            && queue.currentTrack == Some(old(queue.history)[|old(queue.history)| - 1])
            && queue.history == old(queue.history)[..|old(queue.history)| - 1]
            && queue.upcoming == [current] + old(queue.upcoming)
            && queue.paused == old(queue.paused)
            && reply == TrackReplayed(queue.currentTrack.value))
  {
    var ctx := ContextFor(facts, queue);
    var ran, outcome := RunValidators(ctx, Some(TrackButtonValidators), []);
    if outcome.Fail? {
      return ValidationFailed(outcome.error);
    }
    PassedChecksGiveCurrentTrack(ctx);

    if IsStale(queue.currentTrack.value, referenceId) {
      return TrackNotPlayingAnymore;
    }
    if queue.paused {
      return CannotSkipPausedTrack;
    }
    reply := BackToPreviousTrack(queue);
  }

  /** `handleBackToPreviousTrack`: nothing to step back to, or one step back. */
  method BackToPreviousTrack(queue: Queue) returns (reply: ButtonReply)
    modifies queue
    ensures old(queue.history) == [] ==> reply == TrackHistoryEmpty && unchanged(queue)
    ensures old(queue.history) != [] ==>
      && queue.calls == old(queue.calls) + [BackCall]
      && queue.currentTrack == Some(old(queue.history)[|old(queue.history)| - 1])
      && queue.history == old(queue.history)[..|old(queue.history)| - 1]
      && queue.upcoming == (if old(queue.currentTrack).Some? then [old(queue.currentTrack).value] else [])
                           + old(queue.upcoming)
      && queue.paused == old(queue.paused)
      && reply == TrackReplayed(queue.currentTrack.value)
  {
    if queue.history == [] {
      return TrackHistoryEmpty;
    }
    queue.Back();
    var currentTrack := queue.currentTrack.value;
    reply := TrackReplayed(currentTrack);
  }
}
