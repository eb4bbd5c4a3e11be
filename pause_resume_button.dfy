/** The pause/resume button on a now-playing message. */
module PauseResumeButton {
  import opened JsValues
  import opened BaseInteraction
  import opened GuildQueue

  /** The success wording, read back from the queue after the toggle. */
  function Wording(paused: bool): (k: Key)
    ensures k == Paused <==> paused
    ensures k == Resumed <==> !paused
  {
    if paused then Paused else Resumed
  }

  /** The checks, then the stale-press guard, then exactly one toggle: resume
      a paused queue, pause a playing one. */
  method Execute(facts: InteractionFacts, queue: Queue?, referenceId: Option<string>) returns (reply: ButtonReply)
    modifies queue
    ensures var failure := old(FirstFailure(ContextFor(facts, queue), TrackButtonValidators));
      && (reply.ValidationFailed? <==> failure.Some?)
      && (reply.ValidationFailed? ==> reply.error == failure.value && (queue != null ==> unchanged(queue)))
      && (failure.None? ==> queue != null && old(queue.currentTrack).Some?)
    ensures queue != null && old(queue.currentTrack).Some? && !reply.ValidationFailed? ==>
      var current := old(queue.currentTrack).value;
      && (IsStale(current, referenceId) ==> reply == TrackNotPlayingAnymore && unchanged(queue))
      && (!IsStale(current, referenceId) ==>
            && queue.paused == !old(queue.paused)
            && queue.calls == old(queue.calls) + [if old(queue.paused) then ResumeCall else PauseCall]
            && queue.currentTrack == old(queue.currentTrack)
            && queue.upcoming == old(queue.upcoming)
            && queue.history == old(queue.history)
            && reply == PauseResumed(Wording(queue.paused), current))
  {
    var ctx := ContextFor(facts, queue);
    var ran, outcome := RunValidators(ctx, Some(TrackButtonValidators), []);
    if outcome.Fail? {
      return ValidationFailed(outcome.error);
    }
    PassedChecksGiveCurrentTrack(ctx);

    if IsStale(queue.currentTrack.value, referenceId) {
      return TrackNotPlayingAnymore;
    }
    if queue.paused {
      queue.Resume();
    } else {
      queue.Pause();
    }
    reply := PauseResumed(Wording(queue.paused), queue.currentTrack.value);
  }
}
