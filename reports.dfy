/** The end-of-run reports of the crawler: the result rows of
    `write_result_file`, built from the per-video recommendation counts, and the
    per-channel counts behind `describe_channels`. */
module Reports {
  import opened Common
  import opened Collections
  import opened Records
  import opened Crawl

  /** `describe_channels` prints at most this many channels. */
  const DescribedChannels := 500

  /** Recommendations of the given scraped videos at their position in the
      whole list, one video at a time. */
  lemma AllRecosSnoc(order: seq<VideoId>, i: nat, scrapped: map<VideoId, ScrappedVideo>)
    requires i < |order|
    requires forall j :: 0 <= j < |order| ==> order[j] in scrapped
    ensures AllRecos(order[..i + 1], scrapped) == AllRecos(order[..i], scrapped) + scrapped[order[i]].recommendations
  {
    assert order[..i + 1][..i] == order[..i];
  }

  /** `videos_to_recos` of `write_result_file`: how often each video is
      recommended by the scraped videos. */
  function RecoCounts(order: seq<VideoId>, scrapped: map<VideoId, ScrappedVideo>): (t: Tally<VideoId>)
    requires forall i :: 0 <= i < |order| ==> order[i] in scrapped
    ensures t.Valid()
  {
    AddEach(EmptyTally(), AllRecos(order, scrapped))
  }

  /** Counting video by video. */
  lemma RecoCountsStep(order: seq<VideoId>, i: nat, scrapped: map<VideoId, ScrappedVideo>)
    requires i < |order|
    requires forall j :: 0 <= j < |order| ==> order[j] in scrapped
    ensures AddEach(EmptyTally(), AllRecos(order[..i + 1], scrapped))
      == AddEach(AddEach(EmptyTally(), AllRecos(order[..i], scrapped)), scrapped[order[i]].recommendations)
  {
    AllRecosSnoc(order, i, scrapped);
    AddEachAppend(EmptyTally(), AllRecos(order[..i], scrapped), scrapped[order[i]].recommendations);
  }

  /** Each count is the number of times the video appears among the
      recommendations, and only recommended videos have a key. */
  lemma RecoCountsCount(order: seq<VideoId>, scrapped: map<VideoId, ScrappedVideo>, v: VideoId)
    requires forall i :: 0 <= i < |order| ==> order[i] in scrapped
    ensures RecoCounts(order, scrapped).Count(v) == multiset(AllRecos(order, scrapped))[v]
    ensures v in RecoCounts(order, scrapped).counts <==> v in AllRecos(order, scrapped)
  {
    AddEachCount(EmptyTally(), AllRecos(order, scrapped), v);
    AddEachKeys(EmptyTally(), AllRecos(order, scrapped), v);
  }

  // ---------------------------------------------------------------------------
  // `write_result_file`.

  /** An entry of `info_channels`: the identifying fields, the date, the views
      and the number of recommendations. */
  datatype ResultRow = ResultRow(id: VideoId, pdate: string, views: int, nbRecommendations: int, title: string, channel: ChannelName)

  /** The row of a video recommended `nb` times: as the API describes it when it
      has an API record, else as its watch page did, else none. */
  function RowFor(v: VideoId, nb: int, api: map<VideoId, ApiVideo>, scrapped: map<VideoId, ScrappedVideo>): (r: Option<ResultRow>)
    ensures r.None? <==> v !in api && v !in scrapped
    ensures r.Some? ==> r.value.id == v && r.value.nbRecommendations == nb
  {
    if v in api then
      var a := api[v];
      Some(ResultRow(v, a.publishedAt.GetOr(""), a.viewCount.GetOr(-1), nb, a.title, a.channelTitle))
    else if v in scrapped then
      var s := scrapped[v];
      Some(ResultRow(v, s.pubdate, s.views, nb, s.title, s.channel))
    else None
  }

  /** The videos of the ranking recommended more than once, in ranking order. */
  function Popular(ranking: seq<VideoId>, counts: Tally<VideoId>): (r: seq<VideoId>)
    ensures |r| <= |ranking|
  {
    if ranking == [] then []
    else
      var last := ranking[|ranking| - 1];
      Popular(ranking[..|ranking| - 1], counts) + (if counts.Count(last) > 1 then [last] else [])
  }

  /** The rows written for the ranking, in ranking order. */
  function Rows(ranking: seq<VideoId>, counts: Tally<VideoId>, api: map<VideoId, ApiVideo>, scrapped: map<VideoId, ScrappedVideo>): (r: seq<ResultRow>)
    ensures |r| <= |ranking|
  {
    if ranking == [] then []
    else
      var last := ranking[|ranking| - 1];
      var row := RowFor(last, counts.Count(last), api, scrapped);
      Rows(ranking[..|ranking| - 1], counts, api, scrapped) + (if counts.Count(last) > 1 && row.Some? then [row.value] else [])
  }

  /** Every row is for a video of the ranking that is recommended more than
      once and has a record, and carries that video's count. */
  lemma {:induction false} RowsFacts(ranking: seq<VideoId>, counts: Tally<VideoId>, api: map<VideoId, ApiVideo>, scrapped: map<VideoId, ScrappedVideo>)
    ensures forall r :: r in Rows(ranking, counts, api, scrapped) ==>
      && r.nbRecommendations > 1
      && r.nbRecommendations == counts.Count(r.id)
      && r.id in ranking
      && (r.id in api || r.id in scrapped)
  {
    if ranking != [] {
      var init, last := ranking[..|ranking| - 1], ranking[|ranking| - 1];
      assert ranking == init + [last];
      RowsFacts(init, counts, api, scrapped);
    }
  }

  /** Rows whose counts never increase. */
  ghost predicate NonIncreasing(rows: seq<ResultRow>)
  {
    forall i, j :: 0 <= i < j < |rows| ==> rows[i].nbRecommendations >= rows[j].nbRecommendations
  }

  /** When every video of the ranking has at least `m` recommendations, so
      does every row. */
  lemma {:induction false} RowsBound(ranking: seq<VideoId>, counts: Tally<VideoId>, api: map<VideoId, ApiVideo>, scrapped: map<VideoId, ScrappedVideo>, m: int)
    requires forall i :: 0 <= i < |ranking| ==> counts.Count(ranking[i]) >= m
    ensures forall r :: r in Rows(ranking, counts, api, scrapped) ==> r.nbRecommendations >= m
  {
    if ranking != [] {
      var init := ranking[..|ranking| - 1];
      assert forall i :: 0 <= i < |init| ==> init[i] == ranking[i];
      RowsBound(init, counts, api, scrapped, m);
    }
  }

  lemma AppendNonIncreasing(rows: seq<ResultRow>, tail: seq<ResultRow>, m: int)
    requires NonIncreasing(rows) && |tail| <= 1
    requires forall r :: r in rows ==> r.nbRecommendations >= m
    requires forall r :: r in tail ==> r.nbRecommendations == m
    ensures NonIncreasing(rows + tail)
  {
    var all := rows + tail;
    forall i, j | 0 <= i < j < |all|
      ensures all[i].nbRecommendations >= all[j].nbRecommendations
    {
      assert all[i] == rows[i] && rows[i] in rows;
      if j >= |rows| {
        assert all[j] == tail[j - |rows|] && tail[j - |rows|] in tail;
      } else {
        assert all[j] == rows[j];
      }
    }
  }

  /** On a descending ranking the counts never increase down the file. */
  lemma {:induction false} RowsOrdered(ranking: seq<VideoId>, counts: Tally<VideoId>, api: map<VideoId, ApiVideo>, scrapped: map<VideoId, ScrappedVideo>)
    requires Descending(ranking, counts.counts)
    ensures NonIncreasing(Rows(ranking, counts, api, scrapped))
  {
    if ranking != [] {
      var init, last := ranking[..|ranking| - 1], ranking[|ranking| - 1];
      assert forall i :: 0 <= i < |init| ==> init[i] == ranking[i];
      RowsOrdered(init, counts, api, scrapped);
      RowsBound(init, counts, api, scrapped, counts.Count(last));
      var row := RowFor(last, counts.Count(last), api, scrapped);
      var tail := if counts.Count(last) > 1 && row.Some? then [row.value] else [];
      AppendNonIncreasing(Rows(init, counts, api, scrapped), tail, counts.Count(last));
    }
  }

  /** Each popular video either has a row or is counted as not found. */
  lemma {:induction false} RowsSplit(ranking: seq<VideoId>, counts: Tally<VideoId>, api: map<VideoId, ApiVideo>, scrapped: map<VideoId, ScrappedVideo>)
    ensures |Rows(ranking, counts, api, scrapped)| + |Unfound(ranking, counts, api, scrapped)| == |Popular(ranking, counts)|
  {
    if ranking != [] {
      RowsSplit(ranking[..|ranking| - 1], counts, api, scrapped);
    }
  }

  /** The popular videos that have neither an API record nor a scraped one. */
  function Unfound(ranking: seq<VideoId>, counts: Tally<VideoId>, api: map<VideoId, ApiVideo>, scrapped: map<VideoId, ScrappedVideo>): seq<VideoId>
  {
    if ranking == [] then []
    else
      var last := ranking[|ranking| - 1];
      Unfound(ranking[..|ranking| - 1], counts, api, scrapped) + (if counts.Count(last) > 1 && last !in api && last !in scrapped then [last] else [])
  }

  lemma RowsSnoc(ranking: seq<VideoId>, i: nat, counts: Tally<VideoId>, api: map<VideoId, ApiVideo>, scrapped: map<VideoId, ScrappedVideo>)
    requires i < |ranking|
    ensures var v := ranking[i];
      var row := RowFor(v, counts.Count(v), api, scrapped);
      && Rows(ranking[..i + 1], counts, api, scrapped) == Rows(ranking[..i], counts, api, scrapped) + (if counts.Count(v) > 1 && row.Some? then [row.value] else [])
      && Unfound(ranking[..i + 1], counts, api, scrapped) == Unfound(ranking[..i], counts, api, scrapped) + (if counts.Count(v) > 1 && v !in api && v !in scrapped then [v] else [])
  {
    assert ranking[..i + 1][..i] == ranking[..i];
  }

  // ---------------------------------------------------------------------------
  // `describe_channels`.

  /** `_video_to_chan_map.get(reco, 'unknown')` for each recommendation. */
  function ChannelsOrUnknown(recos: seq<VideoId>, v2c: map<VideoId, ChannelId>): (r: seq<ChannelId>)
    ensures |r| == |recos|
    ensures forall i :: 0 <= i < |recos| ==> r[i] == if recos[i] in v2c then v2c[recos[i]] else "unknown"
  {
    if recos == [] then []
    else
      var last := recos[|recos| - 1];
      ChannelsOrUnknown(recos[..|recos| - 1], v2c) + [if last in v2c then v2c[last] else "unknown"]
  }

  lemma ChannelsOrUnknownAppend(a: seq<VideoId>, b: seq<VideoId>, v2c: map<VideoId, ChannelId>)
    ensures ChannelsOrUnknown(a + b, v2c) == ChannelsOrUnknown(a, v2c) + ChannelsOrUnknown(b, v2c)
  {
    var l, r := ChannelsOrUnknown(a + b, v2c), ChannelsOrUnknown(a, v2c) + ChannelsOrUnknown(b, v2c);
    assert |l| == |r|;
    forall i | 0 <= i < |l|
      ensures l[i] == r[i]
    {
      if i < |a| {
        assert (a + b)[i] == a[i];
      } else {
        assert (a + b)[i] == b[i - |a|];
      }
    }
  }

  /** Counting channels video by video. */
  lemma DescribedStep(order: seq<VideoId>, i: nat, scrapped: map<VideoId, ScrappedVideo>, v2c: map<VideoId, ChannelId>)
    requires i < |order|
    requires forall j :: 0 <= j < |order| ==> order[j] in scrapped
    ensures AddEach(EmptyTally(), ChannelsOrUnknown(AllRecos(order[..i + 1], scrapped), v2c))
      == AddEach(AddEach(EmptyTally(), ChannelsOrUnknown(AllRecos(order[..i], scrapped), v2c)), ChannelsOrUnknown(scrapped[order[i]].recommendations, v2c))
  {
    var recos := scrapped[order[i]].recommendations;
    AllRecosSnoc(order, i, scrapped);
    ChannelsOrUnknownAppend(AllRecos(order[..i], scrapped), recos, v2c);
    AddEachAppend(EmptyTally(), ChannelsOrUnknown(AllRecos(order[..i], scrapped), v2c), ChannelsOrUnknown(recos, v2c));
  }

  /** The per-channel counts of `describe_channels`: each channel is counted
      once per recommendation it stands for, and only those have a key. */
  lemma DescribedCount(order: seq<VideoId>, scrapped: map<VideoId, ScrappedVideo>, v2c: map<VideoId, ChannelId>, c: ChannelId)
    requires forall i :: 0 <= i < |order| ==> order[i] in scrapped
    ensures AddEach(EmptyTally(), ChannelsOrUnknown(AllRecos(order, scrapped), v2c)).Count(c)
      == multiset(ChannelsOrUnknown(AllRecos(order, scrapped), v2c))[c]
    ensures c in AddEach(EmptyTally(), ChannelsOrUnknown(AllRecos(order, scrapped), v2c)).counts
      <==> c in ChannelsOrUnknown(AllRecos(order, scrapped), v2c)
  {
    var chans := ChannelsOrUnknown(AllRecos(order, scrapped), v2c);
    AddEachCount(EmptyTally(), chans, c);
    AddEachKeys(EmptyTally(), chans, c);
  }
}
