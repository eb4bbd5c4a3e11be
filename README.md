# Cadence interaction core, modelled in Dafny

This project models the interaction core of the Cadence Discord music bot:

- **Shared handler behaviour** (`BaseInteraction`): running a handler's validators in order, where the first failure stops the run. It also covers the text helpers every embed uses: the track's duration, its link, its thumbnail, the page footer and the progress bar.
- **The `shards` system command** (`Shards`):
  - every shard reports a statistics snapshot;
  - failed reports are dropped;
  - the rest are sorted by the chosen option;
  - one page of ten is laid out as one or two embed columns.
- **The show-queue button** (`ShowQueue`): an ephemeral, paginated queue view. Its previous/next buttons move a page cursor that is clamped to the valid pages. Only the user who opened the view can press them.
- **The skip, pause/resume and previous-track buttons** (`SkipButton`, `PauseResumeButton`, `PreviousButton`): each runs the voice-channel and queue checks, refuses a stale press, and then issues one operation on the guild queue.

Supporting modules:

- `JsValues`: the few JavaScript value shapes the handlers branch on (`??`, truthiness, reading `.url`).
- `Paging`: the page arithmetic shared by the footer, the queue view and the shard overview. A list is shown ten to a page, and the page count is never zero.
- `GuildQueue`: the externally owned player queue. It is an object whose state the buttons change, and it records every call made on it.

Translation is an opaque function from message keys (with the values they interpolate) to text. The validators are modelled by the one fact each of them checks.

## Model

| member | source | states |
|---|---|---|
| BaseInteraction.Check | src/common/classes/InteractionValidationError.ts:1-7 | A failing validator raises the validation error that names that validator; a validator whose fact holds passes. |
| BaseInteraction.FirstFailure | src/common/classes/base/BaseInteraction.ts:44-48 | There is no failure exactly when every listed validator passes. Otherwise the reported error belongs to a listed validator that really fails. |
| BaseInteraction.ValidatorList | src/common/classes/base/BaseInteraction.ts:45 | A supplied list, even an empty one, replaces the handler's default validators. |
| BaseInteraction.RunValidators | src/common/classes/base/BaseInteraction.ts:44-48 | The validators run in list order, and the run stops at the first failure: the validators called form a prefix of the list, all but the last passed, and the last raised the returned error. The run passes exactly when all validators pass, and then all of them ran. The error is the first failure in the list. |
| BaseInteraction.FormattedDuration | src/common/classes/base/BaseInteraction.ts:50-59 | A live track shows the LIVE label whatever its duration. Otherwise a zero duration (raw 0 or "0:00") shows nothing, and any other duration is shown in bold. The text is empty exactly for a non-live track with zero duration. |
| BaseInteraction.ResolvedTitle | src/common/classes/base/BaseInteraction.ts:62 | The track's title when present, otherwise the translated "unavailable title". |
| BaseInteraction.ResolvedUrl | src/common/classes/base/BaseInteraction.ts:63 | The track's URL when present, otherwise the raw payload's URL. |
| BaseInteraction.FormattedTrackUrl | src/common/classes/base/BaseInteraction.ts:61-68 | The "unavailable URL" text when the resolved title is empty or the resolved URL is missing or empty. Otherwise it is the bold markdown link built from that title and URL. |
| BaseInteraction.DisplayTrackDurationAndUrl | src/common/classes/base/BaseInteraction.ts:70-75 | The text is the duration text, then exactly one space, then the link text, and nothing else. |
| BaseInteraction.TrackThumbnailUrlAsWritten | src/common/classes/base/BaseInteraction.ts:77-101 | A non-YouTube track with a truthy raw thumbnail yields that raw thumbnail. For YouTube, the raw thumbnail's `url` property is read. |
| BaseInteraction.YouTubeThumbnailIsLost | src/common/classes/base/BaseInteraction.ts:84-86 | A YouTube track with no raw thumbnail and a non-maxres thumbnail URL gets `undefined`, not that URL. |
| BaseInteraction.TrackThumbnailUrl | src/common/classes/base/BaseInteraction.ts:77-101 | Agrees with the selection as written on every input except the branch at lines 84-86. On that branch the as-written selection yields `undefined`, and this one yields the track's thumbnail string. For a YouTube track without a raw thumbnail, the result is a string that is not a maxresdefault image unless it is the fallback. Without a raw thumbnail, the result is exactly the track's own thumbnail when it is usable (set, and for YouTube not a maxresdefault image), and the fallback otherwise; so with a non-empty fallback it is never empty. |
| BaseInteraction.FooterDisplayPageInfo | src/common/classes/base/BaseInteraction.ts:103-117 | The shown page is the cursor plus one, and the count is the number of tracks. The page count is the least number of ten-entry pages that hold them, and 1 for an empty list. A cursor inside the page count shows a page between 1 and the page count. |
| BaseInteraction.ResolvedProgressBarOptions | src/common/classes/base/BaseInteraction.ts:127-134 | Never a queue bar. Every configured setting is kept: length, timecodes, indicator and both bar characters. Every missing setting takes its default: length 12, no timecodes, a radio-button indicator, bar characters on both sides. |
| BaseInteraction.GetDisplayQueueProgressBar | src/common/classes/base/BaseInteraction.ts:125-147 | A live current track gives the "playing live" text. Otherwise a zero duration gives the "unavailable duration" text. Otherwise it gives the bar between the current and total timestamps. |
| Paging.PageCount | src/interactions/slashcommands/shards.ts:197-199 | At least one page. One page for an empty list. Otherwise the least number of ten-entry pages that holds every entry. |
| Paging.PageSlice | src/interactions/slashcommands/shards.ts:64 | The slice, clamped like JavaScript's: at most one page long, each element taken from the page's offset in order. Its length is what remains from the offset (at most a page), and it is empty past the end. |
| Paging.ValidPageIsNonEmpty | src/interactions/slashcommands/shards.ts:60-64 | For a non-empty list, every page index below the page count starts inside the list and selects between one and ten entries. |
| Paging.EntryIsOnItsPage | src/common/classes/base/BaseInteraction.ts:109 | Entry `i` lies on page `i / 10`, which is a valid page, at position `i % 10` of that page's slice. |
| Shards.ReduceIsSum | src/interactions/slashcommands/shards.ts:101-105 | The accumulating `reduce` adds exactly the sum of the mapped values to its seed. |
| Shards.CollectShardInfo | src/interactions/slashcommands/shards.ts:91-110 | A shard's snapshot has a guild count equal to the number of cached guilds and a connection count equal to the number of queues. Its member, track and listener totals are the sums over guilds and queues. |
| Shards.DefinedResults | src/interactions/slashcommands/shards.ts:112 | Exactly the reported snapshots survive the filter. Nothing is added, and no snapshot is lost when every shard answered. |
| Shards.DefinedResultsAppend | src/interactions/slashcommands/shards.ts:112 | Filtering preserves order: filtering a concatenation concatenates the filtered parts. |
| Shards.ParseSortOption | src/interactions/slashcommands/shards.ts:159-178 | The shard-id order is chosen exactly when the option is missing or is not one of the six statistics (`none` included). |
| Shards.SortShardInfoList | src/interactions/slashcommands/shards.ts:158-179 | Afterwards the array is ordered by the chosen comparator and is a permutation of its old contents. |
| Shards.FetchShardInfo | src/interactions/slashcommands/shards.ts:81-122 | The list is a permutation of the reported snapshots, ordered by the chosen comparator. Each statistic option orders it non-increasing in that statistic, and any other option orders it non-decreasing in shard id. |
| Shards.MemorySortScenario | src/interactions/slashcommands/shards.ts:160-161 | Shards using 50, 10 and 30 MB, in any list that holds exactly them and is ordered as the memory sort promises, come out as 50, 30, 10. |
| Shards.GetPageIndex | src/interactions/slashcommands/shards.ts:193-195 | A missing page option gives index 0. Page `p >= 1` gives index `p - 1`. The index is never negative for a non-negative option. |
| Shards.EvenIndexed | src/interactions/slashcommands/shards.ts:125 | Holds half the page rounded up, and element `k` is the page's entry `2k`. |
| Shards.OddIndexed | src/interactions/slashcommands/shards.ts:126 | Holds half the page rounded down, and element `k` is the page's entry `2k+1`. |
| Shards.InterleaveEvenOdd | src/interactions/slashcommands/shards.ts:125-126 | Reading the two columns alternately gives back the page in its original order. |
| Shards.EvenOddPartition | src/interactions/slashcommands/shards.ts:125-126 | The two columns together hold every entry of the page exactly once. |
| Shards.BuildEmbedFields | src/interactions/slashcommands/shards.ts:124-156 | Exactly one shard gives one full-width field holding it. Any other count gives two inline columns: even positions (padded) then odd positions, which together partition the page. |
| Shards.PageReply | src/interactions/slashcommands/shards.ts:55-79 | The invalid-page warning (page number and total) comes exactly when the index is past the last page. Otherwise the overview carries the shard count, the footer (shard id, page, total) and the fields of that page's slice, and that slice is never empty for a non-empty list. |
| Shards.Execute | src/interactions/slashcommands/shards.ts:40-79 | The guild check fails exactly when the guild may not run system commands. After that the outcome is the invalid-page warning exactly when the requested page is past the last page of the surviving snapshots, and otherwise an overview of all of them with one or two fields. Whichever reply is sent is exactly the page reply for some ordering of the surviving snapshots that is a permutation of them and sorted by the chosen comparator. |
| ShowQueue.TotalPages | src/interactions/components/action-showqueue-button.ts:72 | At least one page, and the same count as the footer's page count. |
| ShowQueue.NextPage | src/interactions/components/action-showqueue-button.ts:97-131 | The cursor stays inside `[0, totalPages-1]`. "Previous" steps back one page unless already on the first. "Next" steps forward one unless already on the last. Any other button leaves the cursor alone. |
| ShowQueue.NoMorePagesNotice | src/interactions/components/action-showqueue-button.ts:99-128 | The notice is sent exactly when a previous/next press leaves the cursor where it was. |
| ShowQueue.TrackLines | src/interactions/components/action-showqueue-button.ts:218-225 | One line per entry of the page's slice, so at most one page of lines. Line `k` shows the track at slice offset `k`, numbered `pageIndex*10 + k + 1`. |
| ShowQueue.FormattedTracksMap | src/interactions/components/action-showqueue-button.ts:206-226 | An empty queue shows the empty-queue message. Otherwise the page's numbered lines are joined by newlines. |
| ShowQueue.TrackListedOnItsPage | src/interactions/components/action-showqueue-button.ts:218-223 | Every queued track `i` appears on the valid page `i / 10`, at line `i % 10`, numbered `i + 1`. |
| ShowQueue.QueueTotalDuration | src/interactions/components/action-showqueue-button.ts:183-204 | More than 1000 tracks gives the "really long time" text. Otherwise the estimate plus the current track's length is shown, unless that total is negative, which also gives "really long time". |
| ShowQueue.FullFooterText | src/interactions/components/action-showqueue-button.ts:228-237 | The footer is the page text, then " - ", then the duration text. |
| ShowQueue.PressDeliveryAsWritten | src/interactions/components/action-showqueue-button.ts:97-165 | A press that gets no notice is answered by exactly one response, and no error escapes: the view update, or the pagination error reply when the update fails. A press that gets the notice keeps the notice as its only response, and an error escapes whether or not the update would otherwise fail. |
| ShowQueue.BoundaryPressEscapesAsWritten | src/interactions/components/action-showqueue-button.ts:99-155 | "Previous" on the first page is answered with the notice, and then an error escapes the collect handler. |
| ShowQueue.DeliverPress | src/interactions/components/action-showqueue-button.ts:97-165 | Every press gets exactly one response and no error escapes. Away from a boundary that response is the view update, or the pagination error reply when the update fails. The response is the notice exactly at a boundary. Away from a boundary it is what the source does. |
| ShowQueue.QueuePaginator.constructor | src/interactions/components/action-showqueue-button.ts:62-79 | The view opens on page 0 with both buttons enabled, with its listing and footer rendered for that page. |
| ShowQueue.QueuePaginator.Collect | src/interactions/components/action-showqueue-button.ts:88-165 | A press by anyone but the invoker changes nothing. A collected press moves the cursor as `NextPage` says and re-renders the listing and footer for the new page. It disables "previous" exactly on the first page and "next" exactly on the last, and answers as `DeliverPress` says. That is the intended behaviour, not the code as written: a boundary press gets the notice only, whereas the source goes on to update the view and lets an error escape (see "## Findings"). |
| ShowQueue.Execute | src/interactions/components/action-showqueue-button.ts:24-34 | The view opens exactly when the queue exists and has a current track. Otherwise the error names the first missing one, and no view is created. An opened view shows the current track it was given. The view opens on page 0 with the given tracks, current track, duration estimate, embed options and translator, and with both buttons enabled. |
| GuildQueue.Queue.Skip | src/interactions/components/action-skip-button.ts:40 | One skip call. In the stand-in, the current track moves to history and the next upcoming track, if any, becomes current. |
| GuildQueue.Queue.Pause | src/interactions/components/action-pauseresume-button.ts:40 | One pause call. The queue is paused and its tracks are unchanged. |
| GuildQueue.Queue.Resume | src/interactions/components/action-pauseresume-button.ts:37 | One resume call. The queue plays and its tracks are unchanged. |
| GuildQueue.Queue.Back | src/interactions/components/action-previous-button.ts:67 | One back call. In the stand-in, the newest history track becomes current, and the interrupted track returns to the front of the queue. |
| GuildQueue.ContextFor | src/interactions/components/action-skip-button.ts:20-27 | The queue checks see whether the guild's queue exists and whether it has a current track. The voice checks see the interaction's facts. |
| GuildQueue.PassedChecksGiveCurrentTrack | src/interactions/components/action-skip-button.ts:22-31 | Once the four track-button checks pass, the user shares the bot's voice channel and the queue exists with a current track. This is what makes `currentTrack!` safe. |
| GuildQueue.FactsPassTrackButtonChecks | src/interactions/components/action-skip-button.ts:22-27 | Conversely, when the user is in the bot's voice channel and the queue exists with a current track, all four track-button checks pass. |
| SkipButton.Execute | src/interactions/components/action-skip-button.ts:15-45 | A failed check replies with the first failure and leaves the queue alone. A stale press replies "not playing anymore" and a paused queue replies "cannot skip", both leaving the queue alone. Otherwise exactly one skip is issued and the reply names the track that was current. Under the stand-in's skip, that track moves to the end of history, and the next upcoming track (if any) becomes current. The paused flag is kept. |
| PauseResumeButton.Wording | src/interactions/components/action-pauseresume-button.ts:72-75 | "Paused" exactly when the queue is paused after the toggle, otherwise "resumed". |
| PauseResumeButton.Execute | src/interactions/components/action-pauseresume-button.ts:15-46 | A failed check or a stale press leaves the queue alone. Otherwise exactly one toggle is issued: resume if paused, pause if playing. The paused flag flips, the current track, upcoming tracks and history stay as they were, and the reply's wording matches the new state. |
| PreviousButton.BackToPreviousTrack | src/interactions/components/action-previous-button.ts:57-72 | Empty history replies "history empty" and leaves the queue alone. Otherwise one back call, as the stand-in performs it, makes the newest history track current and removes it from history. The interrupted track returns to the front of the upcoming tracks, the paused flag is kept, and the reply names the new current track. |
| PreviousButton.Execute | src/interactions/components/action-previous-button.ts:16-40 | A failed check, a stale press, a paused queue or an empty history each leave the queue unchanged with their own reply. Otherwise one step back is taken through history, as the stand-in performs it: the newest history track becomes current, the interrupted track goes to the front of the upcoming tracks, and the paused flag is kept. |

## Left out

- Discord I/O is not modelled: deferring, replying, editing, building embeds, colours, icons and logging. Replies are values naming what is said; the translated strings of a reply are left to the opaque translator.
- The collector's 30-second timer and the deletion of the view when it ends are not modelled. Concurrency between presses is not modelled either: presses are handled one at a time.
- The validators' own implementations (voice-channel, queue and guild checks) are not part of this model. Each is represented by the single fact it checks.
- The player library's queue and history are stand-ins. They keep only the current track, the paused flag, upcoming tracks and history, and they record every call issued on them.
- GuildQueue.Queue.Skip: the transition is an assumed abstraction of the player library's `skip`, whose code is not part of this model. It ignores repeat mode and autoplay, and it applies the change at once rather than when the player moves on. The skip button's success-path queue state holds for this stand-in only.
- GuildQueue.Queue.Back: the transition is an assumed abstraction of the player library's history `back`, whose code is not part of this model. It ignores repeat mode and autoplay, and it applies the change at once. The previous button's success-path queue state holds for this stand-in only.
- `shardInfoToString` and `toLocaleString` number formatting are not modelled. An embed field keeps its entries, plus a flag for the padding run the even column ends with.
- Shards.CollectShardInfo: memory usage is a natural number of hundredths of a megabyte, not the floating-point value rounded with `toFixed(2)`. The heap reading itself is a parameter, as is each shard's guild cache and queue list.
- Shards.SortShardInfoList: the contract states order and permutation but not stability. JavaScript's `sort` is stable, and the insertion step here only swaps on a strict rank drop, but that entries with equal keys keep their relative order is not part of the contract.
- Shards.FetchShardInfo: for the same reason, the contract does not state that snapshots with equal keys keep their order after filtering.
- Shards.FetchShardInfo: the broadcast to every shard is a parameter: the sequence of per-shard results, with a failed shard as a missing value. The rejection path of the broadcast (re-thrown) is not modelled.
- Shards.Execute: requires a page option of at least 1, as the command's option declares (`setMinValue(1)` at src/interactions/slashcommands/shards.ts:34). The shard id of the current process is a parameter.
- BaseInteraction.GetDisplayQueueProgressBar: the player's progress-bar renderer and timestamps are parameters. The bar's drawing is not modelled. The player's timestamp may be missing (src/common/classes/base/BaseInteraction.ts:126 asserts it is present). With no current track the model still draws the bar from the given timestamp, where the source would fail reading its labels.
- ShowQueue.QueuePaginator.Collect: the disabled flags are the button builders' state. The action row sent with each update is serialised once, when the view opens (src/interactions/components/action-showqueue-button.ts:57-60). Whether the buttons shown are ever disabled depends on whether that serialisation copies the builders, which is library behaviour not modelled here.
- PreviousButton.Execute: the source answers with `editReply` without deferring first (src/interactions/components/action-previous-button.ts:16-40), unlike the skip button. Reply mechanics are not modelled, so that difference is not captured.
- ShowQueue.QueuePaginator.Collect: the queue is a snapshot taken when the view opened. The source re-reads the live queue on every press, so queue changes during pagination are not modelled. The playing-status line, requester, progress bar and repeat-mode lines of the description are not re-modelled here.
- ShowQueue.FormattedTracksMap: the first render joins the description parts with newlines and later renders join them with nothing; that layout difference is not modelled.
- The `?? queueSize === 0` parts of the disabled-flag expressions (src/interactions/components/action-showqueue-button.ts:145-146) never take effect, because a comparison is never null. The model sets the flags from the page comparison alone.
- With no shard reporting, page 1 is still valid: the page count is 1, the slice is empty and two empty columns are built, as the source does.
- Line numbers in the queue listing use a literal 10 while the slice uses `tracksToDisplay`. The two agree because `tracksToDisplay` is 10, and `TrackLines` keeps both as written.

## Findings

| source | as written | input that shows it | evidently intended | confidence | as-written member | corrected member |
|---|---|---|---|---|---|---|
| src/common/classes/base/BaseInteraction.ts:84-86 | For a YouTube track with no raw thumbnail, the thumbnail becomes `track.thumbnail.url`, but `track.thumbnail` is a string, so this is `undefined`. | A YouTube track with no raw thumbnail and thumbnail `https://i.ytimg.com/vi/x/hqdefault.jpg`. | Use `track.thumbnail` itself, as the non-YouTube branch does. Every other branch stays as written. | medium, not executed | BaseInteraction.TrackThumbnailUrlAsWritten, BaseInteraction.YouTubeThumbnailIsLost | BaseInteraction.TrackThumbnailUrl |
| src/interactions/components/action-showqueue-button.ts:99-155 | At a boundary the press is answered with the "no more pages" notice, but the handler goes on to `button.update`. That throws because the interaction already has its response, and the `button.reply` in the catch block throws again, out of the collect listener. | Pressing "previous" on page 0 of a three-page queue. | Answer a boundary press with the notice only, and do not update the view. | medium, not executed | ShowQueue.PressDeliveryAsWritten, ShowQueue.BoundaryPressEscapesAsWritten | ShowQueue.DeliverPress |
