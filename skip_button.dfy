/** The skip button on a now-playing message. */
module SkipButton {
  import opened JsValues
  import opened BaseInteraction
  import opened GuildQueue

  /** The checks, then the stale-press guard, then the paused guard, and only
      then one skip. Every rejected press leaves the queue untouched. */
  method Execute(facts: InteractionFacts, queue: Queue?, referenceId: Option<string>) returns (reply: ButtonReply)
    modifies queue
    ensures var failure := old(FirstFailure(ContextFor(facts, queue), TrackButtonValidators));
      && (reply.ValidationFailed? <==> failure.Some?)
      && (reply.ValidationFailed? ==> reply.error == failure.value && (queue != null ==> unchanged(queue)))
      && (failure.None? ==> queue != null && old(queue.currentTrack).Some?)
    ensures queue != null && old(queue.currentTrack).Some? && !reply.ValidationFailed? ==>
      var current := old(queue.currentTrack).value;
      && (IsStale(current, referenceId) ==> reply == TrackNotPlayingAnymore && unchanged(queue))
      && (!IsStale(current, referenceId) && old(queue.paused) ==> reply == CannotSkipPausedTrack && unchanged(queue))
      && (!IsStale(current, referenceId) && !old(queue.paused) ==>
            && reply == Skipped(current)
            && queue.calls == old(queue.calls) + [SkipCall]
            && queue.paused == old(queue.paused)
            && queue.history == old(queue.history) + [current]
            && (old(queue.upcoming) != [] ==>
                  queue.currentTrack == Some(old(queue.upcoming)[0]) && queue.upcoming == old(queue.upcoming)[1..])
            && (old(queue.upcoming) == [] ==> queue.currentTrack == None && queue.upcoming == []))
  {
    var ctx := ContextFor(facts, queue);
    var ran, outcome := RunValidators(ctx, Some(TrackButtonValidators), []);
    if outcome.Fail? {
      return ValidationFailed(outcome.error);
    }
    PassedChecksGiveCurrentTrack(ctx);

    var current := queue.currentTrack.value;
    if IsStale(current, referenceId) {
      return TrackNotPlayingAnymore;
    }
    if queue.paused {
      return CannotSkipPausedTrack;
    }
    var skippedTrack := current;
    queue.Skip();
    reply := Skipped(skippedTrack);
  }
}
