/** The `shards` system command: every shard reports a statistics snapshot,
    failed reports are dropped, the rest are sorted by the chosen key and one
    page of ten is laid out as embed columns. */
module Shards {
  import opened JsValues
  import opened BaseInteraction
  import Paging

  // ---------------------------------------------------------------------------
  // Per-shard snapshot
  // ---------------------------------------------------------------------------

  datatype PlayerStatistics = PlayerStatistics(activeVoiceConnections: nat, totalTracks: nat, totalListeners: nat)

  /** One shard's snapshot. `memUsage` is the heap in use, in hundredths of a
      megabyte (the source keeps two decimals of a floating-point MB value). */
  datatype ShardInfo = ShardInfo(
    shardId: nat,
    memUsage: nat,
    guildCount: nat,
    guildMemberCount: nat,
    playerStatistics: PlayerStatistics)

  /** What a shard knows of one cached guild and of one player queue. */
  datatype GuildStats = GuildStats(memberCount: nat)
  datatype QueueStats = QueueStats(tracksCount: nat, listeners: nat)

  function MemberCount(g: GuildStats): nat { g.memberCount }
  function TracksCount(q: QueueStats): nat { q.tracksCount }
  function Listeners(q: QueueStats): nat { q.listeners }

  /** `xs.reduce((acc, x) => acc + f(x), acc)`: a left fold. */
  function Reduce<T>(acc: nat, xs: seq<T>, f: T -> nat): nat
    decreases |xs|
  {
    if xs == [] then acc else Reduce(acc + f(xs[0]), xs[1..], f)
  }

  /** The plain sum of `f` over `xs`. */
  function Sum<T>(xs: seq<T>, f: T -> nat): nat
  {
    if xs == [] then 0 else f(xs[0]) + Sum(xs[1..], f)
  }

  /** The accumulator-passing reduce adds exactly the sum to its seed. */
  lemma {:induction false} ReduceIsSum<T>(acc: nat, xs: seq<T>, f: T -> nat)
    ensures Reduce(acc, xs, f) == acc + Sum(xs, f)
    decreases |xs|
  {
    if xs != [] {
      ReduceIsSum(acc + f(xs[0]), xs[1..], f);
    }
  }

  /** The snapshot one shard builds from its guild cache and player statistics. */
  function CollectShardInfo(shardId: nat, memUsage: nat, guilds: seq<GuildStats>, queues: seq<QueueStats>)
    : (info: ShardInfo)
    ensures info.shardId == shardId && info.memUsage == memUsage
    ensures info.guildCount == |guilds|
    ensures info.guildMemberCount == Sum(guilds, MemberCount)
    ensures info.playerStatistics.activeVoiceConnections == |queues|
    ensures info.playerStatistics.totalTracks == Sum(queues, TracksCount)
    ensures info.playerStatistics.totalListeners == Sum(queues, Listeners)
  {
    ReduceIsSum(0, guilds, MemberCount);
    ReduceIsSum(0, queues, TracksCount);
    ReduceIsSum(0, queues, Listeners);
    ShardInfo(
      shardId,
      memUsage,
      |guilds|,
      Reduce(0, guilds, MemberCount),
      PlayerStatistics(|queues|, Reduce(0, queues, TracksCount), Reduce(0, queues, Listeners)))
  }

  // ---------------------------------------------------------------------------
  // Filtering and sorting
  // ---------------------------------------------------------------------------

  /** `results.filter(Boolean)`: a shard that failed reports undefined and is dropped. */
  function DefinedResults(results: seq<Option<ShardInfo>>): (r: seq<ShardInfo>)
    ensures |r| <= |results|
    ensures forall x :: x in r <==> Some(x) in results
    ensures (forall i :: 0 <= i < |results| ==> results[i].Some?) ==> |r| == |results|
  {
    if results == [] then []
    else
      var rest := DefinedResults(results[1..]);
      assert forall x :: Some(x) in results <==> Some(x) == results[0] || Some(x) in results[1..];
      if results[0].Some? then [results[0].value] + rest else rest
  }

  /** Filtering keeps relative order: the defined results of a prefix come
      first, followed by those of the rest. */
  lemma {:induction false} DefinedResultsAppend(a: seq<Option<ShardInfo>>, b: seq<Option<ShardInfo>>)
    ensures DefinedResults(a + b) == DefinedResults(a) + DefinedResults(b)
  {
    if a != [] {
      assert (a + b)[1..] == a[1..] + b;
      DefinedResultsAppend(a[1..], b);
    } else {
      assert a + b == b;
    }
  }

  /** The sort options that order by a statistic, largest first. */
  const DescendingSortOptions: set<string> :=
    {"memory", "connections", "tracks", "listeners", "guilds", "members"}

  datatype SortKey = ByShardId | ByMemory | ByConnections | ByTracks | ByListeners | ByGuilds | ByMembers

  /** The `switch (sortOption)`: every option outside the six statistics,
      including `none` and a missing option, falls to the default branch. */
  function ParseSortOption(sortOption: Option<string>): (key: SortKey)
    ensures key == ByShardId <==> sortOption.None? || sortOption.value !in DescendingSortOptions
  {
    match sortOption
    case Some("memory") => ByMemory
    case Some("connections") => ByConnections
    case Some("tracks") => ByTracks
    case Some("listeners") => ByListeners
    case Some("guilds") => ByGuilds
    case Some("members") => ByMembers
    case _ => ByShardId
  }

  /** Each comparator as a rank: the list is ordered by ascending rank.
      Statistics are negated (largest first); the default uses the shard id. */
  function Rank(key: SortKey, s: ShardInfo): int
  {
    match key
    case ByMemory => -(s.memUsage as int)
    case ByConnections => -(s.playerStatistics.activeVoiceConnections as int)
    case ByTracks => -(s.playerStatistics.totalTracks as int)
    case ByListeners => -(s.playerStatistics.totalListeners as int)
    case ByGuilds => -(s.guildCount as int)
    case ByMembers => -(s.guildMemberCount as int)
    case ByShardId => s.shardId
  }

  ghost predicate SortedFor(key: SortKey, s: seq<ShardInfo>)
  {
    forall i, j :: 0 <= i < j < |s| ==> Rank(key, s[i]) <= Rank(key, s[j])
  }

  /** `shardInfoList.sort(comparator)`, in place. */
  method SortShardInfoList(a: array<ShardInfo>, sortOption: Option<string>)
    modifies a
    ensures SortedFor(ParseSortOption(sortOption), a[..])
    ensures multiset(a[..]) == old(multiset(a[..]))
  {
    var key := ParseSortOption(sortOption);
    var i := 0;
    while i < a.Length
      invariant 0 <= i <= a.Length
      invariant forall p, q :: 0 <= p < q < i ==> Rank(key, a[p]) <= Rank(key, a[q])
      invariant multiset(a[..]) == old(multiset(a[..]))
    {
      InsertLast(a, i, key);
      i := i + 1;
    }
  }

  /** One insertion step: moves `a[i]` left past every entry of higher rank,
      so that the sorted prefix `a[..i]` grows to `a[..i+1]`. */
  method InsertLast(a: array<ShardInfo>, i: nat, key: SortKey)
    requires i < a.Length
    requires forall p, q :: 0 <= p < q < i ==> Rank(key, a[p]) <= Rank(key, a[q])
    modifies a
    ensures forall p, q :: 0 <= p < q <= i ==> Rank(key, a[p]) <= Rank(key, a[q])
    ensures multiset(a[..]) == old(multiset(a[..]))
  {
    var j: nat := i;
    assert InsertionState(key, a[..], i, j);
    while j > 0 && Rank(key, a[j]) < Rank(key, a[j - 1])
      invariant InsertionState(key, a[..], i, j)
      invariant multiset(a[..]) == old(multiset(a[..]))
    {
      ghost var s := a[..];
      a[j - 1], a[j] := a[j], a[j - 1];
      assert a[..] == s[j - 1 := s[j]][j := s[j - 1]];
      SwapKeepsInsertionState(key, s, i, j);
      SwapKeepsMultiset(s, j - 1, j);
      j := j - 1;
    }
    ghost var s := a[..];
    InsertionDone(key, s, i, j);
    assert forall p :: 0 <= p <= i ==> a[p] == s[p];
  }

  /** While `a[j]` travels left from position `i`: the rest of `a[..i+1]` is in
      order, and `a[j]` ranks no higher than anything to its right. */
  ghost predicate InsertionState(key: SortKey, s: seq<ShardInfo>, i: nat, j: nat)
  {
    && j <= i < |s|
    && (forall p, q :: 0 <= p < q <= i && p != j && q != j ==> Rank(key, s[p]) <= Rank(key, s[q]))
    && (forall q :: j < q <= i ==> Rank(key, s[j]) <= Rank(key, s[q]))
  }

  /** Swapping the travelling entry with a higher-ranked left neighbour keeps the state. */
  lemma SwapKeepsInsertionState(key: SortKey, s: seq<ShardInfo>, i: nat, j: nat)
    requires InsertionState(key, s, i, j) && 0 < j && Rank(key, s[j]) < Rank(key, s[j - 1])
    ensures InsertionState(key, s[j - 1 := s[j]][j := s[j - 1]], i, j - 1)
  {
    var t := s[j - 1 := s[j]][j := s[j - 1]];
    forall p, q | 0 <= p < q <= i && p != j - 1 && q != j - 1
      ensures Rank(key, t[p]) <= Rank(key, t[q])
    {
      if q == j {
        assert Rank(key, s[p]) <= Rank(key, s[j - 1]);
      } else if p == j {
        assert Rank(key, s[j - 1]) <= Rank(key, s[q]);
      }
    }
  }

  lemma SwapKeepsMultiset<T>(s: seq<T>, p: nat, q: nat)
    requires p < q < |s|
    ensures multiset(s[p := s[q]][q := s[p]]) == multiset(s)
  {
  }

  /** Once the travelling entry stops, the whole prefix `a[..i+1]` is in order. */
  lemma InsertionDone(key: SortKey, s: seq<ShardInfo>, i: nat, j: nat)
    requires InsertionState(key, s, i, j) && (j == 0 || Rank(key, s[j - 1]) <= Rank(key, s[j]))
    ensures forall p, q :: 0 <= p < q <= i ==> Rank(key, s[p]) <= Rank(key, s[q])
  {
    forall p, q | 0 <= p < q <= i
      ensures Rank(key, s[p]) <= Rank(key, s[q])
    {
      if q == j && p < j - 1 {
        assert Rank(key, s[p]) <= Rank(key, s[j - 1]);
      }
    }
  }

  /** Collects the reports of all shards, drops the failed ones and sorts the
      rest by the chosen option. */
  method FetchShardInfo(results: seq<Option<ShardInfo>>, sortOption: Option<string>)
    returns (shardInfoList: seq<ShardInfo>)
    ensures multiset(shardInfoList) == multiset(DefinedResults(results))
    ensures SortedFor(ParseSortOption(sortOption), shardInfoList)
    ensures sortOption == Some("memory") ==>
      forall i, j :: 0 <= i < j < |shardInfoList| ==> shardInfoList[i].memUsage >= shardInfoList[j].memUsage
    ensures sortOption == Some("connections") ==>
      forall i, j :: 0 <= i < j < |shardInfoList| ==>
        shardInfoList[i].playerStatistics.activeVoiceConnections >= shardInfoList[j].playerStatistics.activeVoiceConnections
    ensures sortOption == Some("tracks") ==>
      forall i, j :: 0 <= i < j < |shardInfoList| ==>
        shardInfoList[i].playerStatistics.totalTracks >= shardInfoList[j].playerStatistics.totalTracks
    ensures sortOption == Some("listeners") ==>
      forall i, j :: 0 <= i < j < |shardInfoList| ==>
        shardInfoList[i].playerStatistics.totalListeners >= shardInfoList[j].playerStatistics.totalListeners
    ensures sortOption == Some("guilds") ==>
      forall i, j :: 0 <= i < j < |shardInfoList| ==> shardInfoList[i].guildCount >= shardInfoList[j].guildCount
    ensures sortOption == Some("members") ==>
      forall i, j :: 0 <= i < j < |shardInfoList| ==> shardInfoList[i].guildMemberCount >= shardInfoList[j].guildMemberCount
    ensures sortOption.None? || sortOption.value !in DescendingSortOptions ==>
      forall i, j :: 0 <= i < j < |shardInfoList| ==> shardInfoList[i].shardId <= shardInfoList[j].shardId
  {
    var defined := DefinedResults(results);
    var a := new ShardInfo[|defined|](k requires 0 <= k < |defined| => defined[k]);
    assert a[..] == defined;
    SortShardInfoList(a, sortOption);
    shardInfoList := a[..];
    assert SortedFor(ParseSortOption(sortOption), shardInfoList);
  }

  /** Three shards using 50, 10 and 30 (hundredths of a) MB: any list that
      holds exactly these three and is ordered as the `memory` sort promises is
      50, 30, 10. */
  lemma MemorySortScenario(s: seq<ShardInfo>)
    requires multiset(s) == multiset(DefinedResults([Some(ScenarioShard(0, 50)), Some(ScenarioShard(1, 10)),
                                                      Some(ScenarioShard(2, 30))]))
    requires forall i, j :: 0 <= i < j < |s| ==> s[i].memUsage >= s[j].memUsage
    ensures s == [ScenarioShard(0, 50), ScenarioShard(2, 30), ScenarioShard(1, 10)]
  {
    var a, b, c := ScenarioShard(0, 50), ScenarioShard(1, 10), ScenarioShard(2, 30);
    assert DefinedResults([Some(a), Some(b), Some(c)]) == [a, b, c];
    assert |s| == 3 by {
      assert |multiset(s)| == |multiset([a, b, c])|;
    }
    assert s[0] in multiset(s) && s[1] in multiset(s) && s[2] in multiset(s);
    assert a in multiset(s) && b in multiset(s) && c in multiset(s);
    assert s == [s[0], s[1], s[2]];
  }

  function ScenarioShard(shardId: nat, memUsage: nat): ShardInfo
  {
    ShardInfo(shardId, memUsage, 1, 1, PlayerStatistics(0, 0, 0))
  }

  // ---------------------------------------------------------------------------
  // Paging and layout
  // ---------------------------------------------------------------------------

  /** `(interaction.options.getInteger('page') || 1) - 1`: a missing (or zero)
      page option means the first page. */
  function GetPageIndex(page: Option<int>): (r: int)
    ensures page.None? ==> r == 0
    ensures page.Some? && page.value >= 1 ==> r == page.value - 1
    ensures page.None? || page.value >= 0 ==> r >= 0
  {
    (if page.None? || page.value == 0 then 1 else page.value) - 1
  }

  /** One embed field: its entries are rendered one per line; a padded field
      ends with a run of blank filler characters that widens the column. */
  datatype EmbedField = EmbedField(name: string, entries: seq<ShardInfo>, padded: bool, inline: bool)

  /** Entries at even positions (0, 2, 4, ...). */
  function EvenIndexed<T>(s: seq<T>): (r: seq<T>)
    ensures |r| == (|s| + 1) / 2
    ensures forall k :: 0 <= k < |r| ==> r[k] == s[2 * k]
    decreases |s|
  {
    if s == [] then [] else [s[0]] + OddIndexed(s[1..])
  }

  /** Entries at odd positions (1, 3, 5, ...). */
  function OddIndexed<T>(s: seq<T>): (r: seq<T>)
    ensures |r| == |s| / 2
    ensures forall k :: 0 <= k < |r| ==> r[k] == s[2 * k + 1]
    decreases |s|
  {
    if s == [] then [] else EvenIndexed(s[1..])
  }

  /** Merges two columns back into one list, alternating from the first. */
  function Interleave<T>(first: seq<T>, second: seq<T>): seq<T>
    decreases |first| + |second|
  {
    if first == [] then second else [first[0]] + Interleave(second, first[1..])
  }

  /** Reading the two columns left, right, left, right, ... gives back the page. */
  lemma {:induction false} InterleaveEvenOdd<T>(s: seq<T>)
    ensures Interleave(EvenIndexed(s), OddIndexed(s)) == s
  {
    if s != [] {
      InterleaveEvenOdd(s[1..]);
      assert EvenIndexed(s) == [s[0]] + OddIndexed(s[1..]);
      assert ([s[0]] + OddIndexed(s[1..]))[1..] == OddIndexed(s[1..]);
    }
  }

  /** Together the two columns hold every entry of the page exactly once. */
  lemma {:induction false} EvenOddPartition<T>(s: seq<T>)
    ensures multiset(EvenIndexed(s)) + multiset(OddIndexed(s)) == multiset(s)
  {
    if s != [] {
      EvenOddPartition(s[1..]);
      assert s == [s[0]] + s[1..];
    }
  }

  /** The embed fields of one page: a single full-width field for exactly one
      shard, otherwise two inline columns (even positions, padded, then odd). */
  function BuildEmbedFields(shards: seq<ShardInfo>): (fields: seq<EmbedField>)
    ensures |shards| == 1 ==> fields == [EmbedField(" ", shards, false, false)]
    ensures |shards| != 1 ==>
              && |fields| == 2
              && fields[0] == EmbedField(" ", EvenIndexed(shards), true, true)
              && fields[1] == EmbedField(" ", OddIndexed(shards), false, true)
    ensures |shards| != 1 ==> multiset(fields[0].entries) + multiset(fields[1].entries) == multiset(shards)
  {
    EvenOddPartition(shards);
    if |shards| == 1 then [EmbedField(" ", shards, false, false)]
    else [EmbedField(" ", EvenIndexed(shards), true, true), EmbedField(" ", OddIndexed(shards), false, true)]
  }

  /** `Shard id: <id>, page <page> of <total>` */
  datatype Footer = Footer(currentShardId: nat, page: int, totalPages: nat)

  datatype ShardsReply =
    | ValidationFailed(error: ValidationError)
    | InvalidPage(page: int, totalPages: nat)
    | Overview(shardCount: nat, fields: seq<EmbedField>, footer: Footer)

  /** The reply for one page of the sorted list: the invalid-page warning when
      the page index is past the last page, otherwise the page's slice laid
      out as embed fields. */
  function PageReply(shardInfoList: seq<ShardInfo>, pageIndex: nat, currentShardId: nat): (reply: ShardsReply)
    ensures var totalPages := Paging.PageCount(|shardInfoList|);
      && (pageIndex > totalPages - 1 <==> reply.InvalidPage?)
      && (reply.InvalidPage? ==> reply == InvalidPage(pageIndex + 1, totalPages))
      && (reply.Overview? ==>
            && reply.shardCount == |shardInfoList|
            && reply.footer == Footer(currentShardId, pageIndex + 1, totalPages)
            && reply.fields == BuildEmbedFields(Paging.PageSlice(shardInfoList, pageIndex, Paging.PageSize)))
    ensures reply.Overview? && |shardInfoList| > 0 ==>
      0 < |Paging.PageSlice(shardInfoList, pageIndex, Paging.PageSize)| <= Paging.PageSize
  {
    var totalPages := Paging.PageCount(|shardInfoList|);
    if pageIndex > totalPages - 1 then InvalidPage(pageIndex + 1, totalPages)
    else
      Paging.ValidPageIsNonEmpty(shardInfoList, pageIndex);
      var currentPageShards := Paging.PageSlice(shardInfoList, pageIndex, Paging.PageSize);
      Overview(|shardInfoList|, BuildEmbedFields(currentPageShards),
               Footer(currentShardId, pageIndex + 1, totalPages))
  }

  /** The whole command: the guild check, the statistics round, then the page. */
  method Execute(
    ctx: ValidationContext, results: seq<Option<ShardInfo>>, sortOption: Option<string>,
    pageOption: Option<int>, currentShardId: nat)
    returns (reply: ShardsReply)
    requires pageOption.Some? ==> pageOption.value >= 1
    ensures reply.ValidationFailed? <==> !ctx.validGuildId
    ensures reply.ValidationFailed? ==> reply.error == InteractionValidationError(ValidGuildId)
    ensures ctx.validGuildId ==>
      var shardCount := |DefinedResults(results)|;
      var pageIndex := GetPageIndex(pageOption);
      && (reply.InvalidPage? <==> pageIndex > Paging.PageCount(shardCount) - 1)
      && (reply.InvalidPage? ==> reply == InvalidPage(pageIndex + 1, Paging.PageCount(shardCount)))
      && (reply.Overview? ==>
            && reply.shardCount == shardCount
            && reply.footer == Footer(currentShardId, pageIndex + 1, Paging.PageCount(shardCount))
            && 1 <= |reply.fields| <= 2)
    ensures ctx.validGuildId ==>
      exists sorted ::
        && multiset(sorted) == multiset(DefinedResults(results))
        && SortedFor(ParseSortOption(sortOption), sorted)
        && reply == PageReply(sorted, GetPageIndex(pageOption), currentShardId)
  {
    var ran, outcome := RunValidators(ctx, Some([ValidGuildId]), []);
    if outcome.Fail? {
      return ValidationFailed(outcome.error);
    }
    assert Check(ctx, [ValidGuildId][0]).Pass?;
    var shardInfoList := FetchShardInfo(results, sortOption);
    assert |shardInfoList| == |DefinedResults(results)| by {
      assert |multiset(shardInfoList)| == |multiset(DefinedResults(results))|;
    }
    reply := PageReply(shardInfoList, GetPageIndex(pageOption), currentShardId);
  }
}
