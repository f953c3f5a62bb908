/** The value-level rules of the snowball crawl: how a recommended video is
    resolved to its channel, which recommended videos still need an API lookup,
    which uploads of a channel are sampled, and the per-channel totals of
    scraped recommendations. The crawler's methods are proved against these. */
module Crawl {
  import opened Common
  import opened Collections
  import opened Records

  /** `ESTIMATED_RECOS_PER_VIDEO`. */
  const EstimatedRecosPerVideo := 15
  /** The most ids one `videos.list` call takes. */
  const BatchCeiling := 50
  /** A channel whose scraped videos hold more recommendations than this has enough. */
  const EnoughRecos := 50

  /** `getChannelForVideo`: the API record first, then the video-to-channel map.
      A video in neither is unresolvable and its recommendation is skipped. */
  function ChannelOf(api: map<VideoId, ApiVideo>, v2c: map<VideoId, ChannelId>, v: VideoId): (r: Option<ChannelId>)
    ensures r.None? <==> v !in api && v !in v2c
    ensures v in api ==> r == Some(api[v].channelId)
    ensures v !in api && v in v2c ==> r == Some(v2c[v])
  {
    if v in api then Some(api[v].channelId)
    else if v in v2c then Some(v2c[v])
    else None
  }

  /** The channels of the recommendations that resolve, in recommendation order. */
  function Resolved(recos: seq<VideoId>, api: map<VideoId, ApiVideo>, v2c: map<VideoId, ChannelId>): (r: seq<ChannelId>)
    ensures |r| <= |recos|
  {
    if recos == [] then []
    else
      var last := recos[|recos| - 1];
      Resolved(recos[..|recos| - 1], api, v2c) + (match ChannelOf(api, v2c, last) case Some(c) => [c] case None => [])
  }

  /** Resolving one more recommendation appends its channel, if it has one. */
  lemma ResolvedSnoc(recos: seq<VideoId>, api: map<VideoId, ApiVideo>, v2c: map<VideoId, ChannelId>, v: VideoId)
    ensures ChannelOf(api, v2c, v).Some? ==> Resolved(recos + [v], api, v2c) == Resolved(recos, api, v2c) + [ChannelOf(api, v2c, v).value]
    ensures ChannelOf(api, v2c, v).None? ==> Resolved(recos + [v], api, v2c) == Resolved(recos, api, v2c)
  {
    assert (recos + [v])[..|recos|] == recos;
  }

  /** Counting one more recommendation adds one to its channel, if it has one. */
  lemma CountStep(counts: Tally<ChannelId>, recos: seq<VideoId>, i: nat, api: map<VideoId, ApiVideo>, v2c: map<VideoId, ChannelId>)
    requires counts.Valid() && i < |recos|
    ensures var before := AddEach(counts, Resolved(recos[..i], api, v2c));
      AddEach(counts, Resolved(recos[..i + 1], api, v2c))
        == match ChannelOf(api, v2c, recos[i]) case Some(c) => before.Add(c, 1) case None => before
  {
    assert recos[..i + 1] == recos[..i] + [recos[i]];
    ResolvedSnoc(recos[..i], api, v2c, recos[i]);
    if ChannelOf(api, v2c, recos[i]).Some? {
      AddEachSnoc(counts, Resolved(recos[..i], api, v2c), ChannelOf(api, v2c, recos[i]).value);
    }
  }

  /** The positions of the recommendations that resolve to channel `c`. */
  ghost function ResolvingTo(recos: seq<VideoId>, api: map<VideoId, ApiVideo>, v2c: map<VideoId, ChannelId>, c: ChannelId): set<int>
  {
    set i | 0 <= i < |recos| && ChannelOf(api, v2c, recos[i]) == Some(c)
  }

  lemma ResolvingToSnoc(recos: seq<VideoId>, api: map<VideoId, ApiVideo>, v2c: map<VideoId, ChannelId>, c: ChannelId)
    requires recos != []
    ensures var n := |recos| - 1;
      ResolvingTo(recos, api, v2c, c)
      == ResolvingTo(recos[..n], api, v2c, c) + (if ChannelOf(api, v2c, recos[n]) == Some(c) then {n} else {})
  {
    var n := |recos| - 1;
    var init := recos[..n];
    forall i | 0 <= i < n ensures init[i] == recos[i] { }
  }

  /** A channel occurs in `Resolved` once per recommendation that resolves to it. */
  lemma {:induction false} ResolvedCount(recos: seq<VideoId>, api: map<VideoId, ApiVideo>, v2c: map<VideoId, ChannelId>, c: ChannelId)
    ensures multiset(Resolved(recos, api, v2c))[c] == |ResolvingTo(recos, api, v2c, c)|
    decreases |recos|
  {
    if recos != [] {
      var n := |recos| - 1;
      var init := recos[..n];
      ResolvedCount(init, api, v2c, c);
      ResolvingToSnoc(recos, api, v2c, c);
      var before := ResolvingTo(init, api, v2c, c);
      assert n !in before;
      var tail := match ChannelOf(api, v2c, recos[n]) case Some(d) => [d] case None => [];
      assert Resolved(recos, api, v2c) == Resolved(init, api, v2c) + tail;
      assert multiset(tail)[c] == (if ChannelOf(api, v2c, recos[n]) == Some(c) then 1 else 0);
    }
  }

  /** Only channels that some recommendation resolves to are counted. */
  lemma {:induction false} ResolvedMembers(recos: seq<VideoId>, api: map<VideoId, ApiVideo>, v2c: map<VideoId, ChannelId>, c: ChannelId)
    ensures c in Resolved(recos, api, v2c) <==> exists i :: 0 <= i < |recos| && ChannelOf(api, v2c, recos[i]) == Some(c)
  {
    ResolvedCount(recos, api, v2c, c);
    var s := ResolvingTo(recos, api, v2c, c);
    if c in Resolved(recos, api, v2c) {
      assert |s| > 0;
      var i :| i in s;
      assert ChannelOf(api, v2c, recos[i]) == Some(c);
    } else {
      assert s == {};
      forall i | 0 <= i < |recos| ensures ChannelOf(api, v2c, recos[i]) != Some(c) {
        assert i !in s;
      }
    }
  }

  /** `scrap_the_video`'s counting: from `counts`, a channel gains one per
      recommendation that resolves to it, and only such channels gain a key. */
  lemma TallyResolved(counts: Tally<ChannelId>, recos: seq<VideoId>, api: map<VideoId, ApiVideo>, v2c: map<VideoId, ChannelId>, c: ChannelId)
    requires counts.Valid()
    ensures AddEach(counts, Resolved(recos, api, v2c)).Count(c) == counts.Count(c) + |ResolvingTo(recos, api, v2c, c)|
    ensures c in AddEach(counts, Resolved(recos, api, v2c)).counts <==>
      c in counts.counts || exists i :: 0 <= i < |recos| && ChannelOf(api, v2c, recos[i]) == Some(c)
  {
    AddEachCount(counts, Resolved(recos, api, v2c), c);
    ResolvedCount(recos, api, v2c, c);
    AddEachKeys(counts, Resolved(recos, api, v2c), c);
    ResolvedMembers(recos, api, v2c, c);
  }

  /** The recommendations `scrap_the_video` sends to the API in one batch: those
      known to neither map, in order, repetitions included. */
  function Missing(recos: seq<VideoId>, api: map<VideoId, ApiVideo>, v2c: map<VideoId, ChannelId>): (r: seq<VideoId>)
    ensures |r| <= |recos|
    ensures forall v :: v in r <==> v in recos && v !in api && v !in v2c
  {
    if recos == [] then []
    else
      var last := recos[|recos| - 1];
      var init := Missing(recos[..|recos| - 1], api, v2c);
      assert forall v :: v in recos <==> v in recos[..|recos| - 1] || v == last by {
        assert recos == recos[..|recos| - 1] + [last];
      }
      init + (if last !in api && last !in v2c then [last] else [])
  }

  // ---------------------------------------------------------------------------
  // The memo of scraped videos (`get_recommendations`).

  /** `_scrapped_videos` after a request for `videoId`: the page is read and
      stored only when the video is not there yet. */
  function Scraped(scrapped: map<VideoId, ScrappedVideo>, videoId: VideoId, fetch: VideoId -> ScrappedVideo): map<VideoId, ScrappedVideo>
  {
    if videoId in scrapped then scrapped else scrapped[videoId := fetch(videoId)]
  }

  /** The insertion order of `_scrapped_videos` after the same request. */
  function ScrapedOrder(scrapped: map<VideoId, ScrappedVideo>, order: seq<VideoId>, videoId: VideoId): seq<VideoId>
  {
    if videoId in scrapped then order else order + [videoId]
  }

  /** A request for a video already scraped changes nothing, a stored record
      is never replaced, and afterwards the video is scraped. */
  lemma ScrapedMemo(scrapped: map<VideoId, ScrappedVideo>, videoId: VideoId, fetch: VideoId -> ScrappedVideo)
    ensures videoId in scrapped ==> Scraped(scrapped, videoId, fetch) == scrapped
    ensures forall v :: v in scrapped ==> v in Scraped(scrapped, videoId, fetch) && Scraped(scrapped, videoId, fetch)[v] == scrapped[v]
    ensures Scraped(scrapped, videoId, fetch).Keys == scrapped.Keys + {videoId}
    ensures videoId !in scrapped ==> Scraped(scrapped, videoId, fetch)[videoId] == fetch(videoId)
  {
  }

  /** Going from `s0` to `s`, exactly the videos of `done` were added, each
      with its fetched page, and no record was replaced. */
  ghost predicate GrownFrom(s0: map<VideoId, ScrappedVideo>, fetch: VideoId -> ScrappedVideo, done: seq<VideoId>, s: map<VideoId, ScrappedVideo>)
  {
    && (forall v :: v in s <==> v in s0 || v in done)
    && (forall v :: v in s0 ==> s[v] == s0[v])
    && (forall v :: v in s && v !in s0 ==> s[v] == fetch(v))
    && (forall j :: 0 <= j < |done| ==> done[j] in s)
  }

  /** Requesting one more video extends the growth by that video, and the
      recommendations already counted keep their total. */
  lemma GrownSnoc(s0: map<VideoId, ScrappedVideo>, fetch: VideoId -> ScrappedVideo, done: seq<VideoId>, s: map<VideoId, ScrappedVideo>, v: VideoId)
    requires GrownFrom(s0, fetch, done, s)
    ensures GrownFrom(s0, fetch, done + [v], Scraped(s, v, fetch))
    ensures var after := Scraped(s, v, fetch);
      RecoTotal(done + [v], after) == RecoTotal(done, s) + |after[v].recommendations|
  {
    var after := Scraped(s, v, fetch);
    ScrapedMemo(s, v, fetch);
    assert forall j :: 0 <= j < |done + [v]| ==> (done + [v])[j] in after by {
      assert forall j :: 0 <= j < |done| ==> (done + [v])[j] == done[j];
    }
    RecoTotalFrame(done, s, after);
    RecoTotalSnoc(done, v, after);
  }

  // ---------------------------------------------------------------------------
  // Sampling the uploads of a channel (`getChannelToCountFromUploads`).

  /** The first pass: the uploads already scraped, in upload order. */
  function Cached(uploads: seq<VideoId>, scrapped: map<VideoId, ScrappedVideo>): (r: seq<VideoId>)
    ensures |r| <= |uploads|
    ensures forall i :: 0 <= i < |r| ==> r[i] in scrapped
    ensures forall v :: v in r <==> v in uploads && v in scrapped
  {
    if uploads == [] then []
    else
      var last := uploads[|uploads| - 1];
      var init := Cached(uploads[..|uploads| - 1], scrapped);
      assert forall v :: v in uploads <==> v in uploads[..|uploads| - 1] || v == last by {
        assert uploads == uploads[..|uploads| - 1] + [last];
      }
      init + (if last in scrapped then [last] else [])
  }

  /** `nb_recos`: the number of recommendations stored for the given videos. */
  function RecoTotal(videos: seq<VideoId>, scrapped: map<VideoId, ScrappedVideo>): nat
    requires forall i :: 0 <= i < |videos| ==> videos[i] in scrapped
  {
    if videos == [] then 0
    else RecoTotal(videos[..|videos| - 1], scrapped) + |scrapped[videos[|videos| - 1]].recommendations|
  }

  /** `total_video_needed`: the cached uploads, plus one fresh upload for every
      15 recommendations still missing (integer division), when the cached
      ones hold fewer than `required`. */
  function Target(cached: nat, nbRecos: nat, required: int): (r: int)
    ensures r >= cached
    ensures nbRecos >= required ==> r == cached
  {
    if nbRecos < required then cached + (required - nbRecos) / EstimatedRecosPerVideo else cached
  }

  /** The uploads that are not scraped yet, each once, in order of first occurrence. */
  function FreshUploads(uploads: seq<VideoId>, scrapped: map<VideoId, ScrappedVideo>): (r: seq<VideoId>)
    ensures |r| <= |uploads|
  {
    if uploads == [] then []
    else
      var last := uploads[|uploads| - 1];
      var init := FreshUploads(uploads[..|uploads| - 1], scrapped);
      if last !in scrapped && last !in init then init + [last] else init
  }

  /** Every fresh upload is an upload that is not scraped, listed once; every
      upload that is not scraped is listed. */
  lemma {:induction false} FreshUploadsFacts(uploads: seq<VideoId>, scrapped: map<VideoId, ScrappedVideo>)
    ensures Distinct(FreshUploads(uploads, scrapped))
    ensures forall v :: v in FreshUploads(uploads, scrapped) <==> v in uploads && v !in scrapped
  {
    if uploads != [] {
      var init := uploads[..|uploads| - 1];
      var last := uploads[|uploads| - 1];
      assert uploads == init + [last];
      FreshUploadsFacts(init, scrapped);
    }
  }

  /** The fresh uploads of a prefix are a prefix of the fresh uploads. */
  lemma {:induction false} FreshUploadsPrefix(uploads: seq<VideoId>, scrapped: map<VideoId, ScrappedVideo>, i: nat)
    requires i <= |uploads|
    ensures var p := FreshUploads(uploads[..i], scrapped);
      |p| <= |FreshUploads(uploads, scrapped)| && FreshUploads(uploads, scrapped)[..|p|] == p
    decreases |uploads| - i
  {
    if i < |uploads| {
      FreshUploadsPrefix(uploads, scrapped, i + 1);
      assert uploads[..i + 1][..i] == uploads[..i];
    } else {
      assert uploads[..i] == uploads;
    }
  }

  /** One more upload adds at most one fresh upload. */
  lemma FreshUploadsSnoc(uploads: seq<VideoId>, scrapped: map<VideoId, ScrappedVideo>, i: nat)
    requires i < |uploads|
    ensures var before, after := FreshUploads(uploads[..i], scrapped), FreshUploads(uploads[..i + 1], scrapped);
      after == if uploads[i] !in scrapped && uploads[i] !in before then before + [uploads[i]] else before
  {
    assert uploads[..i + 1][..i] == uploads[..i];
  }

  /** The target length for the uploads of a channel. */
  function SampleTarget(uploads: seq<VideoId>, required: int, scrapped: map<VideoId, ScrappedVideo>): int
  {
    var c := Cached(uploads, scrapped);
    Target(|c|, RecoTotal(c, scrapped), required)
  }

  function Min(a: int, b: int): int
  {
    if a <= b then a else b
  }

  /** `videos_to_get`: every cached upload in upload order, then fresh uploads in
      order until the target length is reached or the uploads run out. When the
      cached uploads already meet the demand, the first upload is still added if
      it is fresh, because the loop tests the length only after appending. */
  function UploadSample(uploads: seq<VideoId>, required: int, scrapped: map<VideoId, ScrappedVideo>): seq<VideoId>
  {
    Cached(uploads, scrapped) + SampleTail(uploads, required, scrapped)
  }

  /** The uploads the second pass appends after the cached ones. */
  function SampleTail(uploads: seq<VideoId>, required: int, scrapped: map<VideoId, ScrappedVideo>): seq<VideoId>
  {
    var c := Cached(uploads, scrapped);
    var target := SampleTarget(uploads, required, scrapped);
    if target > |c| then Take(FreshUploads(uploads, scrapped), target - |c|)
    else if |uploads| > 0 && uploads[0] !in scrapped then [uploads[0]] else []
  }

  /** After the cached uploads come distinct uploads not scraped yet: when the
      target is above the cached count, as many as it asks for while fresh
      uploads last; when it equals the cached count (the demand is met, or short
      by fewer than 15 recommendations), the first upload alone, and only if it
      is fresh. */
  lemma SampleTailMembers(uploads: seq<VideoId>, required: int, scrapped: map<VideoId, ScrappedVideo>)
    ensures var t := SampleTail(uploads, required, scrapped);
      forall i :: 0 <= i < |t| ==> t[i] in uploads && t[i] !in scrapped
    ensures Distinct(SampleTail(uploads, required, scrapped))
  {
    var c, target := Cached(uploads, scrapped), SampleTarget(uploads, required, scrapped);
    if target > |c| {
      TakeFreshFacts(uploads, scrapped, target - |c|);
    }
  }

  /** How long the tail is. */
  lemma SampleTailLength(uploads: seq<VideoId>, required: int, scrapped: map<VideoId, ScrappedVideo>)
    ensures var t, c := SampleTail(uploads, required, scrapped), Cached(uploads, scrapped);
      var target := SampleTarget(uploads, required, scrapped);
      target > |c| ==> |t| == Min(target - |c|, |FreshUploads(uploads, scrapped)|)
    ensures var t, c := SampleTail(uploads, required, scrapped), Cached(uploads, scrapped);
      SampleTarget(uploads, required, scrapped) == |c| ==>
        |t| <= 1 && (|t| == 1 <==> |uploads| > 0 && uploads[0] !in scrapped)
  {
  }

  /** A prefix of the fresh uploads holds fresh uploads, each once. */
  lemma TakeFreshFacts(uploads: seq<VideoId>, scrapped: map<VideoId, ScrappedVideo>, k: nat)
    ensures var t := Take(FreshUploads(uploads, scrapped), k);
      && (forall i :: 0 <= i < |t| ==> t[i] in uploads && t[i] !in scrapped)
      && Distinct(t)
  {
    var unseen := FreshUploads(uploads, scrapped);
    FreshUploadsFacts(uploads, scrapped);
    var t := Take(unseen, k);
    forall i | 0 <= i < |t| ensures t[i] in uploads && t[i] !in scrapped {
      assert t[i] == unseen[i] && unseen[i] in unseen;
    }
  }

  /** The fresh uploads up to the first position where there are `k` of them
      are the first `k` fresh uploads. */
  lemma FreshUploadsTake(uploads: seq<VideoId>, scrapped: map<VideoId, ScrappedVideo>, i: nat, k: int)
    requires i < |uploads| && 0 < k
    requires i > 0 ==> |FreshUploads(uploads[..i], scrapped)| < k
    requires |FreshUploads(uploads[..i + 1], scrapped)| >= k
    ensures Take(FreshUploads(uploads, scrapped), k) == FreshUploads(uploads[..i + 1], scrapped)
  {
    var f := FreshUploads(uploads[..i + 1], scrapped);
    assert |f| == k by {
      FreshUploadsSnoc(uploads, scrapped, i);
      if i == 0 {
        assert uploads[..0] == [];
      }
    }
    FreshUploadsPrefix(uploads, scrapped, i + 1);
  }

  /** The second pass stops at upload `i` when the sample reaches the target
      there for the first time; the fresh uploads met so far are then the tail. */
  lemma SampleStop(uploads: seq<VideoId>, required: int, scrapped: map<VideoId, ScrappedVideo>, i: nat)
    requires i < |uploads|
    requires var c, target := Cached(uploads, scrapped), SampleTarget(uploads, required, scrapped);
      && (i > 0 ==> |c| + |FreshUploads(uploads[..i], scrapped)| < target)
      && |c| + |FreshUploads(uploads[..i + 1], scrapped)| >= target
    ensures SampleTail(uploads, required, scrapped) == FreshUploads(uploads[..i + 1], scrapped)
  {
    var c, target := Cached(uploads, scrapped), SampleTarget(uploads, required, scrapped);
    if target > |c| {
      FreshUploadsTake(uploads, scrapped, i, target - |c|);
    } else {
      assert i == 0;
      FirstFresh(uploads, scrapped);
    }
  }

  lemma FirstFresh(uploads: seq<VideoId>, scrapped: map<VideoId, ScrappedVideo>)
    requires |uploads| > 0
    ensures FreshUploads(uploads[..1], scrapped) == if uploads[0] !in scrapped then [uploads[0]] else []
  {
    FreshUploadsSnoc(uploads, scrapped, 0);
    assert uploads[..0] == [];
  }

  /** The second pass runs through all the uploads when the target is never
      reached; the tail is then every fresh upload. */
  lemma SampleEnd(uploads: seq<VideoId>, required: int, scrapped: map<VideoId, ScrappedVideo>)
    requires |uploads| > 0 ==> |Cached(uploads, scrapped)| + |FreshUploads(uploads, scrapped)| < SampleTarget(uploads, required, scrapped)
    ensures SampleTail(uploads, required, scrapped) == FreshUploads(uploads, scrapped)
  {
    var all := FreshUploads(uploads, scrapped);
    if |uploads| > 0 {
      var c, target := Cached(uploads, scrapped), SampleTarget(uploads, required, scrapped);
      assert Take(all, target - |c|) == all;
    }
  }

  /** `RecoTotal` reads only the records of the given videos. */
  lemma {:induction false} RecoTotalFrame(videos: seq<VideoId>, s1: map<VideoId, ScrappedVideo>, s2: map<VideoId, ScrappedVideo>)
    requires forall i :: 0 <= i < |videos| ==> videos[i] in s1 && videos[i] in s2 && s1[videos[i]] == s2[videos[i]]
    ensures RecoTotal(videos, s1) == RecoTotal(videos, s2)
  {
    if videos != [] {
      RecoTotalFrame(videos[..|videos| - 1], s1, s2);
    }
  }

  lemma RecoTotalSnoc(videos: seq<VideoId>, v: VideoId, scrapped: map<VideoId, ScrappedVideo>)
    requires forall i :: 0 <= i < |videos| ==> videos[i] in scrapped
    requires v in scrapped
    ensures RecoTotal(videos + [v], scrapped) == RecoTotal(videos, scrapped) + |scrapped[v].recommendations|
  {
    assert (videos + [v])[..|videos|] == videos;
  }

  /** The featured-channel filter of `scrap_the_channel`: with no channel to
      look for, every channel passes. */
  predicate PassesFeatureFilter(channel: ChannelId, featured: seq<ChannelId>, featuring: seq<ChannelId>)
  {
    |featuring| == 0 || channel in featuring || exists i :: 0 <= i < |featured| && featured[i] in featuring
  }

  /** Merging a tally counted from scratch never lowers a count: each
      channel's total grows by its occurrences among the counted channels. */
  lemma MergeGrows(t: Tally<ChannelId>, ks: seq<ChannelId>, c: ChannelId)
    requires t.Valid()
    ensures Merge(t, AddEach(EmptyTally(), ks)).Count(c) == t.Count(c) + multiset(ks)[c]
    ensures Merge(t, AddEach(EmptyTally(), ks)).Count(c) >= t.Count(c)
  {
    MergeCount(t, AddEach(EmptyTally(), ks), c);
    AddEachCount(EmptyTally(), ks, c);
  }

  /** No channel's total goes down when a tally counted from scratch is merged in. */
  lemma MergeNeverLowers(t: Tally<ChannelId>, ks: seq<ChannelId>)
    requires t.Valid()
    ensures forall c :: t.Count(c) <= Merge(t, AddEach(EmptyTally(), ks)).Count(c)
  {
    forall c ensures t.Count(c) <= Merge(t, AddEach(EmptyTally(), ks)).Count(c) {
      MergeGrows(t, ks, c);
    }
  }

  // ---------------------------------------------------------------------------
  // Channel lookups (`scrap_the_channel`).

  /** The `_channel_stats` entry `scrap_the_channel` works from: the stored one
      when statistics are reused, otherwise one built from the first
      `channels.list` item and the uploads playlist; none when the channel
      lookup has no item. */
  function StatsFor(stats: map<ChannelId, ChannelStats>, channel: ChannelId, reuse: bool,
                    channelApi: ChannelId -> Option<ChannelInfo>, playlistApi: string -> seq<VideoId>): Option<ChannelStats>
  {
    if channel in stats && reuse then Some(stats[channel])
    else match channelApi(channel)
      case None => None
      case Some(info) => Some(ChannelStats(playlistApi(info.uploadsPlaylist), info.title, info.subscriberCount, info.featured))
  }

  /** `_channel_stats` afterwards: a looked-up entry is stored under the channel. */
  function StatsStored(stats: map<ChannelId, ChannelStats>, channel: ChannelId, reuse: bool,
                       channelApi: ChannelId -> Option<ChannelInfo>, playlistApi: string -> seq<VideoId>): map<ChannelId, ChannelStats>
  {
    if channel in stats && reuse then stats
    else match StatsFor(stats, channel, reuse, channelApi, playlistApi)
      case None => stats
      case Some(entry) => stats[channel := entry]
  }

  /** The entry used is stored afterwards, no other channel's entry changes,
      a reused entry is left as it is, and a looked-up entry holds the
      playlist's uploads and the channel's featured channels. */
  lemma StatsForFacts(stats: map<ChannelId, ChannelStats>, channel: ChannelId, reuse: bool,
                      channelApi: ChannelId -> Option<ChannelInfo>, playlistApi: string -> seq<VideoId>)
    ensures var e, s := StatsFor(stats, channel, reuse, channelApi, playlistApi), StatsStored(stats, channel, reuse, channelApi, playlistApi);
      e.Some? ==> channel in s && s[channel] == e.value
    ensures var s := StatsStored(stats, channel, reuse, channelApi, playlistApi);
      s.Keys <= stats.Keys + {channel} && forall c :: c in stats && c != channel ==> c in s && s[c] == stats[c]
    ensures channel in stats && reuse ==>
      StatsFor(stats, channel, reuse, channelApi, playlistApi) == Some(stats[channel]) && StatsStored(stats, channel, reuse, channelApi, playlistApi) == stats
    ensures !(channel in stats && reuse) ==>
      (StatsFor(stats, channel, reuse, channelApi, playlistApi).None? <==> channelApi(channel).None?)
    ensures !(channel in stats && reuse) && channelApi(channel).Some? ==>
      var e, info := StatsFor(stats, channel, reuse, channelApi, playlistApi).value, channelApi(channel).value;
      e.uploads == playlistApi(info.uploadsPlaylist) && e.featured == info.featured
  {
  }

  // ---------------------------------------------------------------------------
  // Totals over the scraped videos.

  /** Every recommendation of the given scraped videos, video by video. */
  function AllRecos(order: seq<VideoId>, scrapped: map<VideoId, ScrappedVideo>): seq<VideoId>
    requires forall i :: 0 <= i < |order| ==> order[i] in scrapped
  {
    if order == [] then []
    else AllRecos(order[..|order| - 1], scrapped) + scrapped[order[|order| - 1]].recommendations
  }

  /** The videos the batching loops look at: each scraped video, then its recommendations. */
  function Mentioned(order: seq<VideoId>, scrapped: map<VideoId, ScrappedVideo>): seq<VideoId>
    requires forall i :: 0 <= i < |order| ==> order[i] in scrapped
  {
    if order == [] then []
    else Mentioned(order[..|order| - 1], scrapped) + ([order[|order| - 1]] + scrapped[order[|order| - 1]].recommendations)
  }

  lemma MentionedSnoc(order: seq<VideoId>, i: nat, scrapped: map<VideoId, ScrappedVideo>)
    requires i < |order| && forall j :: 0 <= j < |order| ==> order[j] in scrapped
    ensures Mentioned(order[..i + 1], scrapped) == Mentioned(order[..i], scrapped) + ([order[i]] + scrapped[order[i]].recommendations)
  {
    assert order[..i + 1][..i] == order[..i];
  }

  /** `channels_to_recos` of `getChannelsWithEnoughRecos`: per channel name, the
      number of recommendations on its scraped videos, names in first-seen order. */
  function ChannelRecoTally(order: seq<VideoId>, scrapped: map<VideoId, ScrappedVideo>): (t: Tally<ChannelName>)
    requires forall i :: 0 <= i < |order| ==> order[i] in scrapped
    ensures t.Valid()
  {
    if order == [] then EmptyTally()
    else
      var v := scrapped[order[|order| - 1]];
      ChannelRecoTally(order[..|order| - 1], scrapped).Add(v.channel, |v.recommendations|)
  }

  /** The number of recommendations on the scraped videos of channel `name`. */
  function ChannelRecoSum(order: seq<VideoId>, scrapped: map<VideoId, ScrappedVideo>, name: ChannelName): nat
    requires forall i :: 0 <= i < |order| ==> order[i] in scrapped
  {
    if order == [] then 0
    else
      var v := scrapped[order[|order| - 1]];
      ChannelRecoSum(order[..|order| - 1], scrapped, name) + (if v.channel == name then |v.recommendations| else 0)
  }

  /** The tally holds exactly the per-channel sums. */
  lemma {:induction false} ChannelRecoTallyCount(order: seq<VideoId>, scrapped: map<VideoId, ScrappedVideo>, name: ChannelName)
    requires forall i :: 0 <= i < |order| ==> order[i] in scrapped
    ensures ChannelRecoTally(order, scrapped).Count(name) == ChannelRecoSum(order, scrapped, name)
  {
    if order != [] {
      ChannelRecoTallyCount(order[..|order| - 1], scrapped, name);
    }
  }

  /** The channel name of each scraped video, in order. */
  function ChannelNames(order: seq<VideoId>, scrapped: map<VideoId, ScrappedVideo>): (r: seq<ChannelName>)
    requires forall i :: 0 <= i < |order| ==> order[i] in scrapped
    ensures |r| == |order|
    ensures forall i :: 0 <= i < |order| ==> r[i] == scrapped[order[i]].channel
  {
    if order == [] then [] else ChannelNames(order[..|order| - 1], scrapped) + [scrapped[order[|order| - 1]].channel]
  }

  /** A name is a key of the tally exactly when one of the videos has it. */
  lemma {:induction false} ChannelRecoTallyKeys(order: seq<VideoId>, scrapped: map<VideoId, ScrappedVideo>, name: ChannelName)
    requires forall i :: 0 <= i < |order| ==> order[i] in scrapped
    ensures name in ChannelRecoTally(order, scrapped).counts <==> name in ChannelNames(order, scrapped)
  {
    if order != [] {
      var n := |order| - 1;
      var init := order[..n];
      ChannelRecoTallyKeys(init, scrapped, name);
      var v := scrapped[order[n]];
      var t0 := ChannelRecoTally(init, scrapped);
      assert ChannelRecoTally(order, scrapped) == t0.Add(v.channel, |v.recommendations|);
      assert ChannelNames(order, scrapped) == ChannelNames(init, scrapped) + [v.channel];
    }
  }

  /** The keys of a tally whose count is more than `EnoughRecos`, in key order. */
  function EnoughOf(t: Tally<ChannelName>, keys: seq<ChannelName>): (r: seq<ChannelName>)
    ensures forall k :: k in r <==> k in keys && t.Count(k) > EnoughRecos
  {
    if keys == [] then []
    else
      var last := keys[|keys| - 1];
      assert keys == keys[..|keys| - 1] + [last];
      EnoughOf(t, keys[..|keys| - 1]) + (if t.Count(last) > EnoughRecos then [last] else [])
  }

  /** The channels a snowball round attempts: those of the ranking that are
      neither in the enough-recos list nor in the do-not-expand set. */
  function Candidates(ranking: seq<ChannelId>, enough: seq<ChannelName>, doNotExpand: set<ChannelId>): (r: seq<ChannelId>)
    ensures |r| <= |ranking|
    ensures forall c :: c in r <==> c in ranking && c !in enough && c !in doNotExpand
  {
    if ranking == [] then []
    else
      var last := ranking[|ranking| - 1];
      assert ranking == ranking[..|ranking| - 1] + [last];
      Candidates(ranking[..|ranking| - 1], enough, doNotExpand) + (if last !in enough && last !in doNotExpand then [last] else [])
  }

  lemma CandidatesSnoc(ranking: seq<ChannelId>, i: nat, enough: seq<ChannelName>, doNotExpand: set<ChannelId>)
    requires i < |ranking|
    ensures Candidates(ranking[..i + 1], enough, doNotExpand)
      == Candidates(ranking[..i], enough, doNotExpand) + (if ranking[i] !in enough && ranking[i] !in doNotExpand then [ranking[i]] else [])
  {
    assert ranking[..i + 1][..i] == ranking[..i];
  }

  /** A channel of the round's ranking is one of the `k` best by tally: no channel
      outside it has a larger tally, and the ranking is a stable descending sort. */
  lemma TopRanking(t: Tally<ChannelId>, k: nat)
    requires t.Valid()
    ensures Distinct(SortDesc(t.keys, t.counts))
    ensures multiset(SortDesc(t.keys, t.counts)) == multiset(t.keys)
    ensures Descending(Take(SortDesc(t.keys, t.counts), k), t.counts)
    ensures forall i, j :: 0 <= i < |Take(SortDesc(t.keys, t.counts), k)| <= j < |SortDesc(t.keys, t.counts)| ==>
      t.Count(SortDesc(t.keys, t.counts)[j]) <= t.Count(Take(SortDesc(t.keys, t.counts), k)[i])
  {
    var s := SortDesc(t.keys, t.counts);
    SortDescFacts(t.keys, t.counts);
    PermutationDistinct(t.keys, s);
  }
}
