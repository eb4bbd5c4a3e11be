/** The show-queue button: an ephemeral, paginated view of the queue whose
    previous/next buttons move a page cursor for as long as the collector lives. */
module ShowQueue {
  import opened JsValues
  import opened BaseInteraction
  import Paging

  const PreviousPageId := "previous-page"
  const NextPageId := "next-page"

  /** `Math.max(1, Math.ceil(queueSize / 10))`: the same count as the footer's
      `Math.ceil(n / 10) || 1`. */
  function TotalPages(queueSize: nat): (r: nat)
    ensures r >= 1
    ensures r == Paging.PageCount(queueSize)
  {
    var pages := (queueSize + 9) / 10;
    if 1 < pages then pages else 1
  }

  // ---------------------------------------------------------------------------
  // Cursor
  // ---------------------------------------------------------------------------

  /** The page after a press: previous steps back but not below 0, next steps
      forward but not past the last page, any other button leaves it. */
  function NextPage(page: nat, totalPages: nat, customId: string): (r: nat)
    requires totalPages >= 1
    ensures page < totalPages ==> r < totalPages
    ensures customId == PreviousPageId ==> r <= page && (page > 0 ==> r == page - 1)
    ensures customId == NextPageId && page < totalPages ==> r >= page && (page < totalPages - 1 ==> r == page + 1)
    ensures customId != PreviousPageId && customId != NextPageId ==> r == page
  {
    if customId == PreviousPageId then (if page - 1 > 0 then page - 1 else 0)
    else if customId == NextPageId then (if page + 1 < totalPages - 1 then page + 1 else totalPages - 1)
    else page
  }

  /** Whether the press gets the "no more pages" notice. */
  function NoMorePagesNotice(page: nat, totalPages: nat, customId: string): (notice: bool)
    requires totalPages >= 1
    ensures page < totalPages ==>
      (notice <==> (customId == PreviousPageId || customId == NextPageId) && NextPage(page, totalPages, customId) == page)
  {
    (customId == PreviousPageId && page == 0) || (customId == NextPageId && page == totalPages - 1)
  }

  /** The collector's filter: only the user who opened the view can page it. */
  predicate Collected(presserId: string, invokerId: string)
  {
    presserId == invokerId
  }

  // ---------------------------------------------------------------------------
  // Track listing and duration
  // ---------------------------------------------------------------------------

  /** Decimal digits of a natural number, as a template literal prints it. */
  function NumberText(n: nat): string
  {
    var digit := "0123456789"[n % 10];
    if n < 10 then [digit] else NumberText(n / 10) + [digit]
  }

  function Join(lines: seq<string>, separator: string): string
  {
    if |lines| == 0 then "" else if |lines| == 1 then lines[0]
    else lines[0] + separator + Join(lines[1..], separator)
  }

  /** `**<number>.** <duration> <link>` */
  function TrackLine(number: nat, track: Track, options: EmbedOptions, tr: Translator): string
  {
    "**" + NumberText(number) + ".** " + DisplayTrackDurationAndUrl(track, options, tr)
  }

  /** The numbered lines of one page: the tracks from `pageIndex * tracksToDisplay`
      on, at most `tracksToDisplay` of them, numbered from `pageIndex * 10 + 1`. */
  function TrackLines(tracks: seq<Track>, pageIndex: nat, tracksToDisplay: nat, options: EmbedOptions, tr: Translator)
    : (lines: seq<string>)
    ensures |lines| <= tracksToDisplay
    ensures |lines| == |Paging.PageSlice(tracks, pageIndex, tracksToDisplay)|
    ensures forall k :: 0 <= k < |lines| ==>
      pageIndex * tracksToDisplay + k < |tracks|
      && lines[k] == TrackLine(pageIndex * 10 + k + 1, tracks[pageIndex * tracksToDisplay + k], options, tr)
  {
    var page := Paging.PageSlice(tracks, pageIndex, tracksToDisplay);
    var lines := seq(|page|, k requires 0 <= k < |page| => TrackLine(pageIndex * 10 + k + 1, page[k], options, tr));
    assert forall k :: 0 <= k < |lines| ==> lines[k] == TrackLine(pageIndex * 10 + k + 1, page[k], options, tr);
    lines
  }

  /** The listing shown in the embed: the empty-queue message for an empty
      queue, otherwise the page's numbered lines joined by newlines. */
  function FormattedTracksMap(tracks: seq<Track>, pageIndex: nat, tracksToDisplay: nat,
                              options: EmbedOptions, tr: Translator): (r: string)
    ensures |tracks| == 0 ==> r == tr(EmptyQueue)
    ensures |tracks| > 0 ==> r == Join(TrackLines(tracks, pageIndex, tracksToDisplay, options, tr), "\n")
  {
    if |tracks| == 0 then tr(EmptyQueue)
    else Join(TrackLines(tracks, pageIndex, tracksToDisplay, options, tr), "\n")
  }

  /** With ten tracks per page, track `i` is listed exactly at line `i % 10` of
      page `i / 10`, under the number `i + 1`. */
  lemma TrackListedOnItsPage(tracks: seq<Track>, i: nat, options: EmbedOptions, tr: Translator)
    requires i < |tracks|
    ensures i / 10 < TotalPages(|tracks|)
    ensures var lines := TrackLines(tracks, i / 10, 10, options, tr);
      i % 10 < |lines| && lines[i % 10] == TrackLine(i + 1, tracks[i], options, tr)
  {
    Paging.EntryIsOnItsPage(tracks, i);
    assert (i / 10) * 10 + i % 10 == i;
  }

  /** The footer's duration part. */
  function QueueTotalDuration(trackCount: nat, estimatedDuration: int, currentTrack: Option<Track>): (k: Key)
    ensures k == EstimatedReallyLongTime || k.EstimatedDuration?
    ensures trackCount > 1000 ==> k == EstimatedReallyLongTime
    ensures trackCount <= 1000 ==>
      var total := estimatedDuration + (if currentTrack.Some? then currentTrack.value.durationMs else 0);
      (k == EstimatedReallyLongTime <==> total < 0) && (k.EstimatedDuration? ==> k.durationMs == total)
  {
    if trackCount > 1000 then EstimatedReallyLongTime
    else
      var queueDurationMs := estimatedDuration + (if currentTrack.Some? then currentTrack.value.durationMs else 0);
      if queueDurationMs < 0 then EstimatedReallyLongTime else EstimatedDuration(queueDurationMs)
  }

  /** The footer: the page text, a dash, then the duration text. */
  function FullFooterText(currentPage: nat, tracks: seq<Track>, estimatedDuration: int,
                          currentTrack: Option<Track>, tr: Translator): (text: string)
    ensures var page := tr(FooterDisplayPageInfo(currentPage, |tracks|));
      && |page| <= |text|
      && text[..|page|] == page
      && text[|page|..] == " - " + tr(QueueTotalDuration(|tracks|, estimatedDuration, currentTrack))
  {
    var pagination := tr(FooterDisplayPageInfo(currentPage, |tracks|));
    var totalDuration := tr(QueueTotalDuration(|tracks|, estimatedDuration, currentTrack));
    var text := pagination + " - " + totalDuration;
    assert text[..|pagination|] == pagination;
    text
  }

  // ---------------------------------------------------------------------------
  // Responses to one press
  // ---------------------------------------------------------------------------

  datatype Response = NoticeReply | ViewUpdate | PaginationErrorReply

  /** What became of one collected press: the responses the interaction
      accepted, and whether an error escaped the collect handler. */
  datatype PressDelivery = PressDelivery(accepted: seq<Response>, escaped: bool)

  /** A component interaction takes one initial response (a reply or an
      update); once it has one, any further reply or update throws. */
  function Acknowledge(accepted: seq<Response>, r: Response): Option<seq<Response>>
  {
    if accepted == [] then Some([r]) else None
  }

  /** The collect handler AS WRITTEN: a boundary press is answered with the
      notice, and then the handler still updates the view; that update throws,
      and the error reply in the catch block throws as well. */
  function PressDeliveryAsWritten(notice: bool, updateFails: bool): (d: PressDelivery)
    ensures !notice ==> !d.escaped && |d.accepted| == 1
    ensures !notice ==> d.accepted == [if updateFails then PaginationErrorReply else ViewUpdate]
    ensures notice ==> d == PressDelivery([NoticeReply], true)
  {
    var accepted := if notice then [NoticeReply] else [];
    var update := if updateFails then None else Acknowledge(accepted, ViewUpdate);
    if update.Some? then PressDelivery(update.value, false)
    else
      var errorReply := Acknowledge(accepted, PaginationErrorReply);
      if errorReply.Some? then PressDelivery(errorReply.value, false)
      else PressDelivery(accepted, true)
  }

  /** Pressing previous on the first page: the notice is delivered, then an
      error escapes the collect handler. */
  lemma BoundaryPressEscapesAsWritten()
    ensures NoMorePagesNotice(0, 3, PreviousPageId)
    ensures PressDeliveryAsWritten(NoMorePagesNotice(0, 3, PreviousPageId), false) == PressDelivery([NoticeReply], true)
  {
  }

  /** The collect handler as intended: a boundary press is answered with the
      notice only; any other press updates the view, or replies with the
      pagination error when the update fails. */
  function DeliverPress(notice: bool, updateFails: bool): (d: PressDelivery)
    ensures !d.escaped && |d.accepted| == 1
    ensures d.accepted[0] == NoticeReply <==> notice
    ensures !notice ==> d == PressDeliveryAsWritten(notice, updateFails)
  {
    if notice then PressDelivery([NoticeReply], false)
    else
      var update := if updateFails then None else Acknowledge([], ViewUpdate);
      if update.Some? then PressDelivery(update.value, false) else PressDelivery([PaginationErrorReply], false)
  }

  // ---------------------------------------------------------------------------
  // The live view
  // ---------------------------------------------------------------------------

  /** The state of one open queue view: the cursor, the two buttons and the
      parts of the embed that depend on the page. */
  class QueuePaginator {
    const invokerId: string
    const tracks: seq<Track>
    const estimatedDuration: int
    const currentTrack: Option<Track>
    const totalPages: nat
    const options: EmbedOptions
    const tr: Translator
    var currentPage: nat
    var previousDisabled: bool
    var nextDisabled: bool
    var listing: string
    var footer: string

    ghost predicate Valid()
      reads this
    {
      && totalPages == TotalPages(|tracks|)
      && currentPage < totalPages
      && listing == FormattedTracksMap(tracks, currentPage, Paging.PageSize, options, tr)
      && footer == FullFooterText(currentPage, tracks, estimatedDuration, currentTrack, tr)
    }

    /** The first render: page 0, both buttons enabled. */
    constructor (invokerId: string, tracks: seq<Track>, estimatedDuration: int, currentTrack: Option<Track>,
                 options: EmbedOptions, tr: Translator)
      ensures Valid()
      ensures this.invokerId == invokerId && this.tracks == tracks && this.options == options && this.tr == tr
      ensures this.estimatedDuration == estimatedDuration && this.currentTrack == currentTrack
      ensures currentPage == 0 && !previousDisabled && !nextDisabled
    {
      this.invokerId := invokerId;
      this.tracks := tracks;
      this.options := options;
      this.tr := tr;
      this.estimatedDuration := estimatedDuration;
      this.currentTrack := currentTrack;
      totalPages := TotalPages(|tracks|);
      currentPage := 0;
      previousDisabled := false;
      nextDisabled := false;
      listing := FormattedTracksMap(tracks, 0, Paging.PageSize, options, tr);
      footer := FullFooterText(0, tracks, estimatedDuration, currentTrack, tr);
    }

    /** One button press on the view. Presses by anyone but the invoker are
      not collected and change nothing. A collected press moves the cursor,
      re-renders the page-dependent parts, sets the disabled flags from the
      new page and answers the press. */
    method Collect(presserId: string, customId: string, updateFails: bool)
      returns (collected: bool, delivery: PressDelivery)
      requires Valid()
      modifies this
      ensures Valid()
      ensures collected == Collected(presserId, invokerId)
      ensures !collected ==> unchanged(this) && delivery == PressDelivery([], false)
      ensures collected ==>
        && currentPage == NextPage(old(currentPage), totalPages, customId)
        && delivery == DeliverPress(NoMorePagesNotice(old(currentPage), totalPages, customId), updateFails)
        && previousDisabled == (currentPage == 0)
        && nextDisabled == (currentPage == totalPages - 1)
    {
      collected := Collected(presserId, invokerId);
      if !collected {
        return collected, PressDelivery([], false);
      }
      var notice := NoMorePagesNotice(currentPage, totalPages, customId);
      currentPage := NextPage(currentPage, totalPages, customId);
      listing := FormattedTracksMap(tracks, currentPage, Paging.PageSize, options, tr);
      footer := FullFooterText(currentPage, tracks, estimatedDuration, currentTrack, tr);
      previousDisabled := currentPage == 0;
      nextDisabled := currentPage == totalPages - 1;
      delivery := DeliverPress(notice, updateFails);
    }
  }

  /** The button handler: the queue checks, then a fresh view on page 0. */
  method Execute(ctx: ValidationContext, invokerId: string, tracks: seq<Track>, estimatedDuration: int,
                 currentTrack: Option<Track>, options: EmbedOptions, tr: Translator)
    returns (outcome: Outcome, view: QueuePaginator?)
    requires ctx.hasCurrentTrack ==> currentTrack.Some?
    ensures outcome.Pass? <==> ctx.queueExists && ctx.hasCurrentTrack
    ensures outcome.Fail? ==> view == null
    ensures outcome.Fail? ==> outcome.error.failed == (if !ctx.queueExists then QueueExists else QueueCurrentTrack)
    ensures outcome.Pass? ==> view != null && fresh(view) && view.Valid() && view.currentPage == 0
                              && view.invokerId == invokerId && view.tracks == tracks
                              && view.currentTrack == currentTrack && view.currentTrack.Some?
                              && view.estimatedDuration == estimatedDuration && view.options == options && view.tr == tr
                              && !view.previousDisabled && !view.nextDisabled
  {
    var ran;
    ran, outcome := RunValidators(ctx, Some([QueueExists, QueueCurrentTrack]), []);
    if outcome.Fail? {
      assert !Check(ctx, QueueExists).Pass? || !Check(ctx, QueueCurrentTrack).Pass?;
      return outcome, null;
    }
    assert Check(ctx, [QueueExists, QueueCurrentTrack][0]).Pass?;
    assert Check(ctx, [QueueExists, QueueCurrentTrack][1]).Pass?;
    view := new QueuePaginator(invokerId, tracks, estimatedDuration, currentTrack, options, tr);
  }
}
