/** The snowball crawler `YoutubeChannelScrapper`: its dictionaries and sets are
    the fields of `ChannelScrapper`, and its crawl steps are methods that update
    them. The YouTube Data API, the watch-page download and the channel and
    playlist lookups are function parameters; `apiCalls` logs every
    `videos.list` request the crawler makes and `expansions` every channel it
    expands. */
module Snowball {
  import opened Common
  import opened Collections
  import opened Records
  import opened Crawl
  import opened Reports

  /** `NO_SCRAPPING`. */
  const NoScrapping := false
  /** `REUSE_CHANNEL_STATS`. */
  const ReuseChannelStats := true

  /** A `videos.list` answer for one batch of ids. */
  type VideoService = seq<VideoId> -> seq<ApiItem>

  function ApiPair(item: ApiItem): (VideoId, ApiVideo)
  {
    (item.id, Stored(item))
  }

  function ChanPair(item: ApiItem): (VideoId, ChannelId)
  {
    (item.id, item.channelId)
  }

  /** `_api_videos` after the answers to the given calls have been stored in turn. */
  ghost function ApiAfter(api: map<VideoId, ApiVideo>, calls: seq<seq<VideoId>>, service: VideoService): map<VideoId, ApiVideo>
  {
    if calls == [] then api
    else Upsert(ApiAfter(api, calls[..|calls| - 1], service), MapSeq(service(calls[|calls| - 1]), ApiPair))
  }

  /** `_video_to_chan_map` after the answers to the given calls have been stored in turn. */
  ghost function ChanAfter(v2c: map<VideoId, ChannelId>, calls: seq<seq<VideoId>>, service: VideoService): map<VideoId, ChannelId>
  {
    if calls == [] then v2c
    else Upsert(ChanAfter(v2c, calls[..|calls| - 1], service), MapSeq(service(calls[|calls| - 1]), ChanPair))
  }

  /** Calls cut from one stream of ids: each holds 1 to 50 ids and all but the last exactly 50. */
  ghost predicate Batched(calls: seq<seq<VideoId>>)
  {
    && (forall j :: 0 <= j < |calls| ==> 1 <= |calls[j]| <= BatchCeiling)
    && (forall j :: 0 <= j < |calls| - 1 ==> |calls[j]| == BatchCeiling)
  }

  /** `{video: api[video]['snippet']['channelId'] for video in api}`. */
  function ApiChannels(api: map<VideoId, ApiVideo>): (m: map<VideoId, ChannelId>)
    ensures m.Keys == api.Keys
  {
    map v | v in api :: api[v].channelId
  }

  /** The channels of the API records of the videos in `done`. */
  function ChannelsOn(api: map<VideoId, ApiVideo>, done: set<VideoId>): map<VideoId, ChannelId>
  {
    map v | v in done && v in api :: api[v].channelId
  }

  lemma SyncAll(api: map<VideoId, ApiVideo>)
    ensures ChannelsOn(api, api.Keys) == ApiChannels(api)
  {
  }

  lemma SyncStep(base: map<VideoId, ChannelId>, api: map<VideoId, ApiVideo>, done: set<VideoId>, v: VideoId)
    requires v in api
    ensures (base + ChannelsOn(api, done))[v := api[v].channelId] == base + ChannelsOn(api, done + {v})
  {
  }

  /** The loop over the items of one API answer, storing each one's record in
      `api` and its channel in `v2c`. */
  method StoreAnswers(api: map<VideoId, ApiVideo>, v2c: map<VideoId, ChannelId>, response: seq<ApiItem>)
    returns (api': map<VideoId, ApiVideo>, v2c': map<VideoId, ChannelId>)
    ensures api' == Upsert(api, MapSeq(response, ApiPair))
    ensures v2c' == Upsert(v2c, MapSeq(response, ChanPair))
  {
    api', v2c' := api, v2c;
    for i := 0 to |response|
      invariant api' == Upsert(api, MapSeq(response[..i], ApiPair))
      invariant v2c' == Upsert(v2c, MapSeq(response[..i], ChanPair))
    {
      var item := response[i];
      var a, c := ApiPair(item), ChanPair(item);
      MapSeqPrefix(response, i, ApiPair);
      MapSeqPrefix(response, i, ChanPair);
      UpsertSnoc(api, MapSeq(response[..i], ApiPair), a);
      UpsertSnoc(v2c, MapSeq(response[..i], ChanPair), c);
      api', v2c' := api'[a.0 := a.1], v2c'[c.0 := c.1];
    }
    assert response[..|response|] == response;
  }

  /** The loop over the API records, writing each one's channel into `v2c`. */
  method SyncChannels(v2c: map<VideoId, ChannelId>, api: map<VideoId, ApiVideo>) returns (r: map<VideoId, ChannelId>)
    ensures r == v2c + ApiChannels(api)
  {
    var rest := api.Keys;
    ghost var done: set<VideoId> := {};
    r := v2c;
    while rest != {}
      invariant done + rest == api.Keys
      invariant r == v2c + ChannelsOn(api, done)
      decreases |rest|
    {
      var v :| v in rest;
      SyncStep(v2c, api, done, v);
      r := r[v := api[v].channelId];
      rest, done := rest - {v}, done + {v};
    }
    SyncAll(api);
  }

  /** A video the batching loops have dealt with: queued, or skipped because
      `api` has its record or (when `skipMapped`) `v2c` its channel. */
  ghost predicate Seen(v: VideoId, queued: seq<VideoId>, api: map<VideoId, ApiVideo>, v2c: map<VideoId, ChannelId>, skipMapped: bool)
  {
    v in queued || v in api || (skipMapped && v in v2c)
  }

  /** Every id of `vs` is `Seen`. */
  ghost predicate AllSeen(vs: seq<VideoId>, queued: seq<VideoId>, api: map<VideoId, ApiVideo>, v2c: map<VideoId, ChannelId>, skipMapped: bool)
  {
    vs == [] || (AllSeen(vs[..|vs| - 1], queued, api, v2c, skipMapped) && Seen(vs[|vs| - 1], queued, api, v2c, skipMapped))
  }

  /** `AllSeen` says of each id of `vs` that it is `Seen`. */
  lemma {:induction false} AllSeenMeans(vs: seq<VideoId>, queued: seq<VideoId>, api: map<VideoId, ApiVideo>, v2c: map<VideoId, ChannelId>, skipMapped: bool)
    requires AllSeen(vs, queued, api, v2c, skipMapped)
    ensures forall v :: v in vs ==> Seen(v, queued, api, v2c, skipMapped)
  {
    if vs != [] {
      AllSeenMeans(vs[..|vs| - 1], queued, api, v2c, skipMapped);
      assert vs == vs[..|vs| - 1] + [vs[|vs| - 1]];
    }
  }

  /** Queueing more ids and storing more answers never undoes `AllSeen`. */
  lemma {:induction false} AllSeenKept(vs: seq<VideoId>, skipMapped: bool,
                                       q0: seq<VideoId>, a0: map<VideoId, ApiVideo>, c0: map<VideoId, ChannelId>,
                                       q1: seq<VideoId>, a1: map<VideoId, ApiVideo>, c1: map<VideoId, ChannelId>)
    requires AllSeen(vs, q0, a0, c0, skipMapped)
    requires q0 <= q1
    requires a0.Keys <= a1.Keys && c0.Keys <= c1.Keys
    ensures AllSeen(vs, q1, a1, c1, skipMapped)
  {
    if vs != [] {
      AllSeenKept(vs[..|vs| - 1], skipMapped, q0, a0, c0, q1, a1, c1);
      var v := vs[|vs| - 1];
      if v in q0 {
        var i :| 0 <= i < |q0| && q0[i] == v;
        assert q1[i] == v;
      }
    }
  }

  /** `AllSeen` of two sequences is `AllSeen` of their concatenation. */
  lemma {:induction false} AllSeenConcat(xs: seq<VideoId>, ys: seq<VideoId>, queued: seq<VideoId>, api: map<VideoId, ApiVideo>, v2c: map<VideoId, ChannelId>, skipMapped: bool)
    requires AllSeen(xs, queued, api, v2c, skipMapped) && AllSeen(ys, queued, api, v2c, skipMapped)
    ensures AllSeen(xs + ys, queued, api, v2c, skipMapped)
  {
    if ys == [] {
      assert xs + ys == xs;
    } else {
      var ys' := ys[..|ys| - 1];
      AllSeenConcat(xs, ys', queued, api, v2c, skipMapped);
      assert (xs + ys)[..|xs + ys| - 1] == xs + ys';
    }
  }

  /** The id bookkeeping of the batching loops: the full batches `calls` and
      the open `batch` hold the `queued` ids in order, and every queued id was
      unknown in the maps `api0` and `v2c0` the loops started on. */
  ghost predicate Queued(api0: map<VideoId, ApiVideo>, v2c0: map<VideoId, ChannelId>, skipMapped: bool,
                         calls: seq<seq<VideoId>>, batch: seq<VideoId>, queued: seq<VideoId>)
  {
    && |batch| <= BatchCeiling
    && (forall k :: 0 <= k < |calls| ==> |calls[k]| == BatchCeiling)
    && Flatten(calls) + batch == queued
    && (forall v :: v in queued ==> v !in api0 && (skipMapped ==> v !in v2c0))
  }

  /** Sending a full batch moves it into the calls. */
  lemma QueuedSend(api0: map<VideoId, ApiVideo>, v2c0: map<VideoId, ChannelId>, skipMapped: bool,
                   calls: seq<seq<VideoId>>, batch: seq<VideoId>, queued: seq<VideoId>)
    requires Queued(api0, v2c0, skipMapped, calls, batch, queued) && |batch| == BatchCeiling
    ensures Queued(api0, v2c0, skipMapped, calls + [batch], [], queued)
  {
    assert (calls + [batch])[..|calls|] == calls;
    forall k | 0 <= k < |calls| + 1 ensures |(calls + [batch])[k]| == BatchCeiling {
      if k < |calls| { assert (calls + [batch])[k] == calls[k]; }
    }
  }

  /** Queueing an id unknown at the start extends the open batch. */
  lemma QueuedPush(api0: map<VideoId, ApiVideo>, v2c0: map<VideoId, ChannelId>, skipMapped: bool,
                   calls: seq<seq<VideoId>>, batch: seq<VideoId>, queued: seq<VideoId>, v: VideoId)
    requires Queued(api0, v2c0, skipMapped, calls, batch, queued) && |batch| < BatchCeiling
    requires v !in api0 && (skipMapped ==> v !in v2c0)
    ensures Queued(api0, v2c0, skipMapped, calls, batch + [v], queued + [v])
  {
    assert Flatten(calls) + (batch + [v]) == (Flatten(calls) + batch) + [v];
  }

  /** Closing the open batch, when it is not empty, leaves well-formed calls holding the queue. */
  lemma QueuedClose(api0: map<VideoId, ApiVideo>, v2c0: map<VideoId, ChannelId>, skipMapped: bool,
                    calls: seq<seq<VideoId>>, batch: seq<VideoId>, queued: seq<VideoId>)
    requires Queued(api0, v2c0, skipMapped, calls, batch, queued)
    ensures batch == [] ==> Batched(calls) && Flatten(calls) == queued
    ensures batch != [] ==> Batched(calls + [batch]) && Flatten(calls + [batch]) == queued
  {
    assert (calls + [batch])[..|calls|] == calls;
    assert batch == [] ==> Flatten(calls) + batch == Flatten(calls);
    forall k | 0 <= k < |calls| ensures (calls + [batch])[k] == calls[k] {
    }
  }

  /** The bookkeeping of the batching loops on `apiCalls`, `apiVideos` and
      `videoToChan`, from the maps `api0` and `v2c0` and the calls `calls0`
      they started on: the ids are `Queued`, the full batches `calls` were sent
      after `calls0`, and the maps hold the answers to them. */
  ghost predicate Pending(apiCalls: seq<seq<VideoId>>, apiVideos: map<VideoId, ApiVideo>, videoToChan: map<VideoId, ChannelId>,
                          api0: map<VideoId, ApiVideo>, v2c0: map<VideoId, ChannelId>, calls0: seq<seq<VideoId>>,
                          skipMapped: bool, service: VideoService,
                          calls: seq<seq<VideoId>>, batch: seq<VideoId>, queued: seq<VideoId>)
  {
    && apiCalls == calls0 + calls
    && Queued(api0, v2c0, skipMapped, calls, batch, queued)
    && apiVideos == ApiAfter(api0, calls, service)
    && videoToChan == ChanAfter(v2c0, calls, service)
    && api0.Keys <= apiVideos.Keys && v2c0.Keys <= videoToChan.Keys
  }

  /** The API side of the crawl at one moment: the calls made so far and the
      two maps they filled. */
  datatype ApiState = ApiState(calls: seq<seq<VideoId>>, api: map<VideoId, ApiVideo>, v2c: map<VideoId, ChannelId>)

  /** What the last loop of `getChannelToCountFromUploads` did, video by
      video: `states[i]` is the API side before `scrap_the_video(videos[i])`
      and `states[i + 1]` after its call, and `steps[i]` lists the channels
      its recommendations resolved to once that call was answered. */
  ghost predicate Traced(videos: seq<VideoId>, scrapped: map<VideoId, ScrappedVideo>, service: VideoService,
                         states: seq<ApiState>, steps: seq<seq<ChannelId>>)
  {
    && |states| == |videos| + 1 && |steps| == |videos|
    && (forall i :: 0 <= i < |videos| ==> videos[i] in scrapped)
    && (forall i :: 0 <= i < |videos| ==>
          SentMissing(scrapped[videos[i]].recommendations, service,
                      states[i].calls, states[i].api, states[i].v2c,
                      states[i + 1].calls, states[i + 1].api, states[i + 1].v2c))
    && (forall i :: 0 <= i < |steps| ==>
          steps[i] == Resolved(scrapped[videos[i]].recommendations, states[i + 1].api, states[i + 1].v2c))
  }

  /** Scraping one more video, whose record is then kept, extends the trace by
      that video's call and resolved channels. */
  lemma TracedSnoc(videos: seq<VideoId>, s: map<VideoId, ScrappedVideo>, s': map<VideoId, ScrappedVideo>, service: VideoService,
                   states: seq<ApiState>, steps: seq<seq<ChannelId>>, v: VideoId, a: ApiState, step: seq<ChannelId>)
    requires Traced(videos, s, service, states, steps)
    requires forall u :: u in s ==> u in s' && s'[u] == s[u]
    requires v in s'
    requires var b := states[|videos|];
      SentMissing(s'[v].recommendations, service, b.calls, b.api, b.v2c, a.calls, a.api, a.v2c)
    requires step == Resolved(s'[v].recommendations, a.api, a.v2c)
    ensures Traced(videos + [v], s', service, states + [a], steps + [step])
  {
    var vs, ss, st := videos + [v], states + [a], steps + [step];
    var n := |videos|;
    forall i | 0 <= i < |vs|
      ensures vs[i] in s'
      ensures SentMissing(s'[vs[i]].recommendations, service, ss[i].calls, ss[i].api, ss[i].v2c,
                          ss[i + 1].calls, ss[i + 1].api, ss[i + 1].v2c)
      ensures st[i] == Resolved(s'[vs[i]].recommendations, ss[i + 1].api, ss[i + 1].v2c)
    {
      if i < n {
        assert vs[i] == videos[i] && st[i] == steps[i];
        assert ss[i] == states[i] && ss[i + 1] == states[i + 1];
        assert s'[videos[i]] == s[videos[i]];
      } else {
        assert vs[i] == v && st[i] == step && ss[i] == states[n] && ss[i + 1] == a;
      }
    }
  }

  /** After sampling `uploads` from the scraped videos `s0` and merging
      `added` into the total `t0`: the sample is `UploadSample`, exactly its
      videos were scraped, the trace leads from the API side `a0` to `a1`,
      `added` counts the channels every sampled video's recommendations
      resolved to, and no total went down. */
  ghost predicate Merged(total: Tally<ChannelId>, scrapped: map<VideoId, ScrappedVideo>,
                         t0: Tally<ChannelId>, s0: map<VideoId, ScrappedVideo>, fetch: VideoId -> ScrappedVideo,
                         uploads: seq<VideoId>, required: int, service: VideoService, a0: ApiState, a1: ApiState,
                         added: Tally<ChannelId>, videos: seq<VideoId>, states: seq<ApiState>, steps: seq<seq<ChannelId>>)
    requires t0.Valid()
  {
    && videos == UploadSample(uploads, required, s0)
    && GrownFrom(s0, fetch, videos, scrapped)
    && Traced(videos, scrapped, service, states, steps)
    && states[0] == a0 && states[|videos|] == a1
    && added == AddEach(EmptyTally(), Flatten(steps))
    && added.Valid() && total == Merge(t0, added)
    && (forall c :: t0.Count(c) <= total.Count(c))
  }

  /** The facts `scrap_the_channel`'s sampling gathers make a `Merged` step. */
  lemma MergedIntro(t1: Tally<ChannelId>, t0: Tally<ChannelId>, s0: map<VideoId, ScrappedVideo>, s1: map<VideoId, ScrappedVideo>,
                    fetch: VideoId -> ScrappedVideo, uploads: seq<VideoId>, required: int, service: VideoService,
                    a0: ApiState, a1: ApiState, counts: Tally<ChannelId>, videos: seq<VideoId>,
                    states: seq<ApiState>, steps: seq<seq<ChannelId>>)
    requires t0.Valid() && counts.Valid()
    requires videos == UploadSample(uploads, required, s0) && GrownFrom(s0, fetch, videos, s1)
    requires Traced(videos, s1, service, states, steps) && states[0] == a0 && states[|videos|] == a1
    requires counts == AddEach(EmptyTally(), Flatten(steps))
    requires t1 == Merge(t0, counts)
    ensures Merged(t1, s1, t0, s0, fetch, uploads, required, service, a0, a1, counts, videos, states, steps)
  {
    MergeNeverLowers(t0, Flatten(steps));
  }

  /** The API call of `scrap_the_video`, from `calls0`, `api0` and `v2c0` to
      `calls1`, `api1` and `v2c1`: the recommendations neither map knows are
      sent in one call and their answers stored, and no call is made when
      there are none. */
  ghost predicate SentMissing(recos: seq<VideoId>, service: VideoService,
                              calls0: seq<seq<VideoId>>, api0: map<VideoId, ApiVideo>, v2c0: map<VideoId, ChannelId>,
                              calls1: seq<seq<VideoId>>, api1: map<VideoId, ApiVideo>, v2c1: map<VideoId, ChannelId>)
  {
    var batch := Missing(recos, api0, v2c0);
    if batch == [] then
      calls1 == calls0 && api1 == api0 && v2c1 == v2c0
    else
      && calls1 == calls0 + [batch]
      && api1 == Upsert(api0, MapSeq(service(batch), ApiPair))
      && v2c1 == Upsert(v2c0, MapSeq(service(batch), ChanPair))
  }

  lemma ApiAfterSnoc(api: map<VideoId, ApiVideo>, v2c: map<VideoId, ChannelId>, calls: seq<seq<VideoId>>, batch: seq<VideoId>, service: VideoService)
    ensures ApiAfter(api, calls + [batch], service) == Upsert(ApiAfter(api, calls, service), MapSeq(service(batch), ApiPair))
    ensures ChanAfter(v2c, calls + [batch], service) == Upsert(ChanAfter(v2c, calls, service), MapSeq(service(batch), ChanPair))
    ensures Flatten(calls + [batch]) == Flatten(calls) + batch
  {
    assert (calls + [batch])[..|calls|] == calls;
  }

  /** Appending channels outside `d` to expansions that extend `o` with
      channels outside `d0 <= d` keeps both facts. */
  lemma FreshAppend(o: seq<ChannelId>, e: seq<ChannelId>, attempted: seq<ChannelId>, d0: set<ChannelId>, d: set<ChannelId>)
    requires |o| <= |e| && e[..|o|] == o && d0 <= d
    requires forall j :: |o| <= j < |e| ==> e[j] !in d0
    requires forall c :: c in attempted ==> c !in d
    ensures |o| <= |e + attempted| && (e + attempted)[..|o|] == o
    ensures forall j :: |o| <= j < |e + attempted| ==> (e + attempted)[j] !in d0
  {
    var x := e + attempted;
    assert x[..|o|] == e[..|o|];
    forall j | |o| <= j < |x| ensures x[j] !in d0 {
      if j >= |e| {
        assert x[j] == attempted[j - |e|];
      }
    }
  }

  lemma CountsGrow(t0: Tally<ChannelId>, t1: Tally<ChannelId>, t2: Tally<ChannelId>)
    requires forall c :: t0.Count(c) <= t1.Count(c)
    requires forall c :: t1.Count(c) <= t2.Count(c)
    ensures forall c :: t0.Count(c) <= t2.Count(c)
  {
    forall c ensures t0.Count(c) <= t2.Count(c) {
      assert t0.Count(c) <= t1.Count(c);
    }
  }

  /** The inner loop of `describe_channels`: one more count for the channel
      of each recommendation, or for `"unknown"` when it has none. */
  method CountChannelsOf(t: Tally<ChannelId>, recos: seq<VideoId>, v2c: map<VideoId, ChannelId>) returns (r: Tally<ChannelId>)
    requires t.Valid()
    ensures r == AddEach(t, ChannelsOrUnknown(recos, v2c))
  {
    r := t;
    for i := 0 to |recos|
      invariant r == AddEach(t, ChannelsOrUnknown(recos[..i], v2c))
    {
      var channel := if recos[i] in v2c then v2c[recos[i]] else "unknown";
      PrefixSnoc(recos, i);
      ChannelsOrUnknownAppend(recos[..i], [recos[i]], v2c);
      AddEachSnoc(t, ChannelsOrUnknown(recos[..i], v2c), channel);
      r := r.Add(channel, 1);
    }
    assert recos[..|recos|] == recos;
  }

  /** The outer loop of `describe_channels`, over the scraped videos in order. */
  method CountDescribed(order: seq<VideoId>, scrapped: map<VideoId, ScrappedVideo>, v2c: map<VideoId, ChannelId>)
    returns (counts: Tally<ChannelId>)
    requires forall j :: 0 <= j < |order| ==> order[j] in scrapped
    ensures counts == AddEach(EmptyTally(), ChannelsOrUnknown(AllRecos(order, scrapped), v2c))
  {
    counts := EmptyTally();
    for i := 0 to |order|
      invariant counts == AddEach(EmptyTally(), ChannelsOrUnknown(AllRecos(order[..i], scrapped), v2c))
    {
      counts := CountChannelsOf(counts, scrapped[order[i]].recommendations, v2c);
      DescribedStep(order, i, scrapped, v2c);
    }
    PrefixAll(order);
  }

  /** One upload of the second pass: it is in the list exactly when it is
      scraped or already appended, and the fresh uploads grow accordingly. */
  lemma ExtendStep(uploads: seq<VideoId>, scrapped: map<VideoId, ScrappedVideo>, cached: seq<VideoId>, tail: seq<VideoId>, i: nat)
    requires cached == Cached(uploads, scrapped) && i < |uploads|
    requires tail == FreshUploads(uploads[..i], scrapped)
    ensures FreshUploads(uploads[..i + 1], scrapped) == if uploads[i] in cached + tail then tail else tail + [uploads[i]]
  {
    assert uploads[i] in cached + tail <==> uploads[i] in scrapped || uploads[i] in tail;
    FreshUploadsSnoc(uploads, scrapped, i);
  }

  /** The body of the second pass: append the upload unless it is in the list. */
  method AppendUpload(uploads: seq<VideoId>, scrapped: map<VideoId, ScrappedVideo>, cached: seq<VideoId>,
                      videos: seq<VideoId>, ghost tail: seq<VideoId>, i: nat)
    returns (videos': seq<VideoId>, ghost tail': seq<VideoId>)
    requires cached == Cached(uploads, scrapped) && i < |uploads| && videos == cached + tail
    ensures videos' == cached + tail'
    ensures tail == FreshUploads(uploads[..i], scrapped) ==> tail' == FreshUploads(uploads[..i + 1], scrapped)
  {
    if tail == FreshUploads(uploads[..i], scrapped) {
      ExtendStep(uploads, scrapped, cached, tail, i);
    }
    videos', tail' := videos, tail;
    if uploads[i] !in videos {
      assert (cached + tail) + [uploads[i]] == cached + (tail + [uploads[i]]);
      videos' := videos + [uploads[i]];
      tail' := tail + [uploads[i]];
    }
  }

  /** The second pass: append each upload not in the list yet, and stop
      as soon as the list is `target` long. */
  method ExtendSample(uploads: seq<VideoId>, required: int, scrapped: map<VideoId, ScrappedVideo>,
                      cached: seq<VideoId>, target: int) returns (videos: seq<VideoId>)
    requires cached == Cached(uploads, scrapped)
    requires target == SampleTarget(uploads, required, scrapped)
    ensures videos == cached + SampleTail(uploads, required, scrapped)
  {
    ghost var tail: seq<VideoId> := [];
    videos := cached;
    var i, stop := 0, false;
    while i < |uploads| && !stop
      invariant 0 <= i <= |uploads|
      invariant videos == cached + tail
      invariant !stop ==> tail == FreshUploads(uploads[..i], scrapped) && (i > 0 ==> |videos| < target)
      invariant stop ==> tail == SampleTail(uploads, required, scrapped)
      decreases |uploads| - i
    {
      videos, tail := AppendUpload(uploads, scrapped, cached, videos, tail, i);
      if |videos| >= target {
        SampleStop(uploads, required, scrapped, i);
        stop := true;
      }
      i := i + 1;
    }
    if !stop {
      assert uploads[..|uploads|] == uploads;
      SampleEnd(uploads, required, scrapped);
    }
  }

  class ChannelScrapper {
    /** `_channel_stats`. */
    var channelStats: map<ChannelId, ChannelStats>
    /** `_api_videos`. */
    var apiVideos: map<VideoId, ApiVideo>
    /** `_scrapped_videos`, with its keys in insertion order in `scrappedOrder`. */
    var scrapped: map<VideoId, ScrappedVideo>
    var scrappedOrder: seq<VideoId>
    /** `_video_to_chan_map`. */
    var videoToChan: map<VideoId, ChannelId>
    /** `_total_channel_stats`. */
    var total: Tally<ChannelId>
    /** `_do_not_expand_channel_ids`. */
    var doNotExpand: set<ChannelId>
    /** The id batches sent to `videos.list`, in order. */
    ghost var apiCalls: seq<seq<VideoId>>
    /** The channels that passed the expansion guard, in order. */
    ghost var expansions: seq<ChannelId>

    ghost predicate Valid()
      reads this`scrapped, this`scrappedOrder, this`total, this`doNotExpand, this`expansions
    {
      && (forall v :: v in scrapped ==> v in scrappedOrder)
      && (forall i :: 0 <= i < |scrappedOrder| ==> scrappedOrder[i] in scrapped)
      && Distinct(scrappedOrder)
      && total.Valid()
      && (forall i :: 0 <= i < |expansions| ==> expansions[i] in doNotExpand)
      && Distinct(expansions)
    }

    /** The assignments of `__init__`: the dictionaries loaded from the previous
        run, an empty tally and an empty do-not-expand set. */
    constructor (stats: map<ChannelId, ChannelStats>, api: map<VideoId, ApiVideo>,
                 videos: map<VideoId, ScrappedVideo>, order: seq<VideoId>,
                 v2c: map<VideoId, ChannelId>)
      requires forall v :: v in videos ==> v in order
      requires forall i :: 0 <= i < |order| ==> order[i] in videos
      requires Distinct(order)
      ensures Valid()
      ensures channelStats == stats && apiVideos == api && scrapped == videos && scrappedOrder == order
      ensures videoToChan == v2c && total == EmptyTally() && doNotExpand == {}
      ensures apiCalls == [] && expansions == []
    {
      channelStats := stats;
      apiVideos := api;
      scrapped := videos;
      scrappedOrder := order;
      videoToChan := v2c;
      total := EmptyTally();
      doNotExpand := {};
      apiCalls := [];
      expansions := [];
    }

    /** `__init__`: the constructor's assignments, then `make_video_to_chan_map`. */
    static method Open(stats: map<ChannelId, ChannelStats>, api: map<VideoId, ApiVideo>,
                       videos: map<VideoId, ScrappedVideo>, order: seq<VideoId>,
                       v2c: map<VideoId, ChannelId>, service: VideoService) returns (c: ChannelScrapper)
      requires forall v :: v in videos ==> v in order
      requires forall i :: 0 <= i < |order| ==> order[i] in videos
      requires Distinct(order)
      ensures fresh(c) && c.Valid()
      ensures c.channelStats == stats && c.scrapped == videos && c.scrappedOrder == order
      ensures c.total == EmptyTally() && c.doNotExpand == {} && c.expansions == []
      ensures c.Mapped(api, v2c, c.apiCalls, service)
    {
      c := new ChannelScrapper(stats, api, videos, order, v2c);
      ghost var calls := c.MakeVideoToChanMap(service);
      assert c.apiCalls == calls;
    }

    /** `getVideosFromYouTubeAPI` with `response` the items answered for `batch`:
        each item is stored under its id, and its channel recorded for the video. */
    method GetVideosFromApi(batch: seq<VideoId>, response: seq<ApiItem>)
      modifies this`apiVideos, this`videoToChan, this`apiCalls
      ensures apiCalls == old(apiCalls) + [batch]
      ensures apiVideos == Upsert(old(apiVideos), MapSeq(response, ApiPair))
      ensures videoToChan == Upsert(old(videoToChan), MapSeq(response, ChanPair))
    {
      apiVideos, videoToChan := StoreAnswers(apiVideos, videoToChan, response);
      apiCalls := apiCalls + [batch];
    }

    /** The closing loop of `make_video_to_chan_map` and `get_all_api_data`:
        every API record's channel goes into the video-to-channel map. */
    method SyncVideoToChan()
      modifies this`videoToChan
      ensures videoToChan == old(videoToChan) + ApiChannels(apiVideos)
    {
      videoToChan := SyncChannels(videoToChan, apiVideos);
    }

    /** A video the batching loops skip: it has an API record, or (when
        `skipMapped`) a known channel. */
    ghost predicate Known(v: VideoId, skipMapped: bool)
      reads this`apiVideos, this`videoToChan
    {
      v in apiVideos || (skipMapped && v in videoToChan)
    }

    /** One test of the batching loops: a video not known yet is added to the
        batch, after a full batch of 50 has been sent and emptied. */
    method Queue(v: VideoId, batch: seq<VideoId>, skipMapped: bool, service: VideoService,
                 ghost api0: map<VideoId, ApiVideo>, ghost v2c0: map<VideoId, ChannelId>, ghost calls0: seq<seq<VideoId>>,
                 ghost calls: seq<seq<VideoId>>, ghost queued: seq<VideoId>)
      returns (next: seq<VideoId>, ghost calls': seq<seq<VideoId>>, ghost queued': seq<VideoId>)
      requires Pending(apiCalls, apiVideos, videoToChan, api0, v2c0, calls0, skipMapped, service, calls, batch, queued)
      modifies this`apiVideos, this`videoToChan, this`apiCalls
      ensures Pending(apiCalls, apiVideos, videoToChan, api0, v2c0, calls0, skipMapped, service, calls', next, queued')
      ensures old(Known(v, skipMapped)) ==> next == batch && calls' == calls && queued' == queued
      ensures !old(Known(v, skipMapped)) && |batch| < BatchCeiling ==> next == batch + [v] && calls' == calls && queued' == queued + [v]
      ensures !old(Known(v, skipMapped)) && |batch| == BatchCeiling ==> next == [v] && calls' == calls + [batch] && queued' == queued + [v]
      ensures Seen(v, queued', apiVideos, videoToChan, skipMapped) && queued <= queued'
      ensures old(apiVideos).Keys <= apiVideos.Keys && old(videoToChan).Keys <= videoToChan.Keys
    {
      next, calls', queued' := batch, calls, queued;
      if v !in apiVideos && !(skipMapped && v in videoToChan) {
        if |next| == BatchCeiling {
          QueuedSend(api0, v2c0, skipMapped, calls, batch, queued);
          calls' := Send(batch, service, api0, v2c0, calls0, calls);
          next := [];
        }
        QueuedPush(api0, v2c0, skipMapped, calls', next, queued, v);
        next, queued' := next + [v], queued + [v];
      }
    }

    /** One batch of the batching loops is sent: the maps then hold the
        answers to one more call. */
    method Send(batch: seq<VideoId>, service: VideoService,
                ghost api0: map<VideoId, ApiVideo>, ghost v2c0: map<VideoId, ChannelId>, ghost calls0: seq<seq<VideoId>>,
                ghost calls: seq<seq<VideoId>>)
      returns (ghost calls': seq<seq<VideoId>>)
      requires apiCalls == calls0 + calls
      requires apiVideos == ApiAfter(api0, calls, service) && videoToChan == ChanAfter(v2c0, calls, service)
      modifies this`apiVideos, this`videoToChan, this`apiCalls
      ensures calls' == calls + [batch]
      ensures apiCalls == calls0 + calls'
      ensures apiVideos == ApiAfter(api0, calls', service) && videoToChan == ChanAfter(v2c0, calls', service)
      ensures old(apiVideos).Keys <= apiVideos.Keys && old(videoToChan).Keys <= videoToChan.Keys
    {
      ApiAfterSnoc(api0, v2c0, calls, batch, service);
      GetVideosFromApi(batch, service(batch));
      calls' := calls + [batch];
    }

    /** The inner loop of the batching loops over one `row` of ids: each one not
        known yet is queued. */
    method QueueRow(row: seq<VideoId>, batch0: seq<VideoId>, skipMapped: bool, service: VideoService,
                    ghost api0: map<VideoId, ApiVideo>, ghost v2c0: map<VideoId, ChannelId>, ghost calls0: seq<seq<VideoId>>,
                    ghost calls: seq<seq<VideoId>>, ghost queued: seq<VideoId>)
      returns (batch: seq<VideoId>, ghost calls': seq<seq<VideoId>>, ghost queued': seq<VideoId>)
      requires Pending(apiCalls, apiVideos, videoToChan, api0, v2c0, calls0, skipMapped, service, calls, batch0, queued)
      modifies this`apiVideos, this`videoToChan, this`apiCalls
      ensures Pending(apiCalls, apiVideos, videoToChan, api0, v2c0, calls0, skipMapped, service, calls', batch, queued')
      ensures AllSeen(row, queued', apiVideos, videoToChan, skipMapped)
      ensures queued <= queued'
      ensures old(apiVideos).Keys <= apiVideos.Keys && old(videoToChan).Keys <= videoToChan.Keys
    {
      batch, calls', queued' := batch0, calls, queued;
      for j := 0 to |row|
        invariant Pending(apiCalls, apiVideos, videoToChan, api0, v2c0, calls0, skipMapped, service, calls', batch, queued')
        invariant AllSeen(row[..j], queued', apiVideos, videoToChan, skipMapped)
        invariant queued <= queued'
        invariant old(apiVideos).Keys <= apiVideos.Keys && old(videoToChan).Keys <= videoToChan.Keys
      {
        ghost var q0, a0, c0 := queued', apiVideos, videoToChan;
        batch, calls', queued' := Queue(row[j], batch, skipMapped, service, api0, v2c0, calls0, calls', queued');
        AllSeenKept(row[..j], skipMapped, q0, a0, c0, queued', apiVideos, videoToChan);
        assert row[..j + 1][..j] == row[..j];
      }
      assert row[..|row|] == row;
    }

    /** The last, partial batch of the batching loops, sent when it is not empty. */
    method Flush(batch: seq<VideoId>, skipMapped: bool, service: VideoService,
                 ghost api0: map<VideoId, ApiVideo>, ghost v2c0: map<VideoId, ChannelId>, ghost calls0: seq<seq<VideoId>>,
                 ghost calls: seq<seq<VideoId>>, ghost queued: seq<VideoId>)
      returns (ghost calls': seq<seq<VideoId>>)
      requires Pending(apiCalls, apiVideos, videoToChan, api0, v2c0, calls0, skipMapped, service, calls, batch, queued)
      modifies this`apiVideos, this`videoToChan, this`apiCalls
      ensures apiCalls == calls0 + calls'
      ensures Batched(calls') && Flatten(calls') == queued
      ensures apiVideos == ApiAfter(api0, calls', service)
      ensures videoToChan == ChanAfter(v2c0, calls', service)
      ensures old(apiVideos).Keys <= apiVideos.Keys && old(videoToChan).Keys <= videoToChan.Keys
    {
      calls' := calls;
      QueuedClose(api0, v2c0, skipMapped, calls, batch, queued);
      if batch != [] {
        calls' := Send(batch, service, api0, v2c0, calls0, calls);
      }
    }

    /** The accumulation loops of `make_video_to_chan_map` (`skipMapped`) and
        `get_all_api_data`: every scraped video and then each of its
        recommendations that is not known yet is queued, and the queue is sent
        in batches of 50 with a final partial batch. */
    method AccumulateAndFetch(skipMapped: bool, service: VideoService) returns (ghost queued: seq<VideoId>, ghost calls: seq<seq<VideoId>>)
      requires Valid()
      modifies this`apiVideos, this`videoToChan, this`apiCalls
      ensures apiCalls == old(apiCalls) + calls
      ensures Batched(calls)
      ensures Flatten(calls) == queued
      ensures forall v :: v in queued ==> v !in old(apiVideos) && (skipMapped ==> v !in old(videoToChan))
      ensures forall v :: v in Mentioned(scrappedOrder, scrapped) ==> v in queued || Known(v, skipMapped)
      ensures apiVideos == ApiAfter(old(apiVideos), calls, service)
      ensures videoToChan == ChanAfter(old(videoToChan), calls, service)
    {
      var batch;
      batch, calls, queued := QueueAll(scrappedOrder, scrapped, skipMapped, service);
      ghost var q0, a0, c0 := queued, apiVideos, videoToChan;
      calls := Flush(batch, skipMapped, service, old(apiVideos), old(videoToChan), old(apiCalls), calls, queued);
      AllSeenKept(Mentioned(scrappedOrder, scrapped), skipMapped, q0, a0, c0, queued, apiVideos, videoToChan);
      AllSeenMeans(Mentioned(scrappedOrder, scrapped), queued, apiVideos, videoToChan, skipMapped);
    }

    /** The outer loop of the batching loops over the scraped videos `order`:
        each one's row is queued, leaving the last batch open. */
    method QueueAll(order: seq<VideoId>, videos: map<VideoId, ScrappedVideo>, skipMapped: bool, service: VideoService)
      returns (batch: seq<VideoId>, ghost calls: seq<seq<VideoId>>, ghost queued: seq<VideoId>)
      requires forall i :: 0 <= i < |order| ==> order[i] in videos
      modifies this`apiVideos, this`videoToChan, this`apiCalls
      ensures Pending(apiCalls, apiVideos, videoToChan, old(apiVideos), old(videoToChan), old(apiCalls), skipMapped, service, calls, batch, queued)
      ensures AllSeen(Mentioned(order, videos), queued, apiVideos, videoToChan, skipMapped)
    {
      batch, queued, calls := [], [], [];
      for i := 0 to |order|
        invariant Pending(apiCalls, apiVideos, videoToChan, old(apiVideos), old(videoToChan), old(apiCalls), skipMapped, service, calls, batch, queued)
        invariant AllSeen(Mentioned(order[..i], videos), queued, apiVideos, videoToChan, skipMapped)
      {
        var row := [order[i]] + videos[order[i]].recommendations;
        ghost var seen, q0, a0, c0 := Mentioned(order[..i], videos), queued, apiVideos, videoToChan;
        MentionedSnoc(order, i, videos);
        batch, calls, queued := QueueRow(row, batch, skipMapped, service, old(apiVideos), old(videoToChan), old(apiCalls), calls, queued);
        AllSeenKept(seen, skipMapped, q0, a0, c0, queued, apiVideos, videoToChan);
        AllSeenConcat(seen, row, queued, apiVideos, videoToChan, skipMapped);
      }
      assert order[..|order|] == order;
    }

    /** The state `make_video_to_chan_map` leaves, from the maps `api0` and
        `v2c0` and the batches `calls` it sent: the answers stored in order,
        every API record's channel copied into the video-to-channel map, and
        every video looked at either mapped already or sent in some batch. */
    ghost predicate Mapped(api0: map<VideoId, ApiVideo>, v2c0: map<VideoId, ChannelId>, calls: seq<seq<VideoId>>, service: VideoService)
      reads this`apiVideos, this`videoToChan, this`scrapped, this`scrappedOrder
      requires forall i :: 0 <= i < |scrappedOrder| ==> scrappedOrder[i] in scrapped
    {
      && Batched(calls)
      && apiVideos == ApiAfter(api0, calls, service)
      && videoToChan == ChanAfter(v2c0, calls, service) + ApiChannels(apiVideos)
      && (forall v :: v in Mentioned(scrappedOrder, scrapped) ==> v in videoToChan || v in Flatten(calls))
    }

    /** `make_video_to_chan_map`: the batches skip videos with an API record or
        a known channel; afterwards every video looked at has a channel. */
    method MakeVideoToChanMap(service: VideoService) returns (ghost calls: seq<seq<VideoId>>)
      requires Valid()
      modifies this`apiVideos, this`videoToChan, this`apiCalls
      ensures apiCalls == old(apiCalls) + calls
      ensures Mapped(old(apiVideos), old(videoToChan), calls, service)
    {
      ghost var queued;
      queued, calls := AccumulateAndFetch(true, service);
      SyncVideoToChan();
    }

    /** `get_all_api_data`: the batches skip only videos with an API record. */
    method GetAllApiData(service: VideoService) returns (ghost calls: seq<seq<VideoId>>)
      requires Valid()
      modifies this`apiVideos, this`videoToChan, this`apiCalls
      ensures apiCalls == old(apiCalls) + calls && Batched(calls)
      ensures apiVideos == ApiAfter(old(apiVideos), calls, service)
      ensures videoToChan == ChanAfter(old(videoToChan), calls, service) + ApiChannels(apiVideos)
      ensures forall v :: v in Mentioned(scrappedOrder, scrapped) ==> v in apiVideos || v in Flatten(calls)
    {
      ghost var queued;
      queued, calls := AccumulateAndFetch(false, service);
      SyncVideoToChan();
    }

    // -------------------------------------------------------------------------
    // Scraping videos and channels.

    /** `get_recommendations`: a video already scraped gives its stored
        recommendations and changes nothing; otherwise its page is read with
        `fetch`, stored under its id and appended to the insertion order. */
    method GetRecommendations(videoId: VideoId, fetch: VideoId -> ScrappedVideo) returns (recos: seq<VideoId>)
      requires Valid()
      modifies this`scrapped, this`scrappedOrder
      ensures Valid()
      ensures scrapped == Scraped(old(scrapped), videoId, fetch)
      ensures scrappedOrder == ScrapedOrder(old(scrapped), old(scrappedOrder), videoId)
      ensures recos == scrapped[videoId].recommendations
    {
      if videoId in scrapped {
        return scrapped[videoId].recommendations;
      }
      var video := fetch(videoId);
      recos := video.recommendations;
      if videoId !in scrapped {
        scrapped := scrapped[videoId := video];
        scrappedOrder := scrappedOrder + [videoId];
      }
    }

    /** The first loop of `scrap_the_video`: the recommendations neither map
        knows, in order and with repetitions, as the comma-joined id string. */
    method UnknownRecos(recos: seq<VideoId>) returns (batch: seq<VideoId>)
      ensures batch == Missing(recos, apiVideos, videoToChan)
    {
      batch := [];
      for i := 0 to |recos|
        invariant batch == Missing(recos[..i], apiVideos, videoToChan)
      {
        assert recos[..i + 1][..i] == recos[..i];
        if recos[i] !in apiVideos && recos[i] !in videoToChan {
          batch := batch + [recos[i]];
        }
      }
      assert recos[..|recos|] == recos;
    }

    /** The second loop of `scrap_the_video`: one more count for the channel
        of every recommendation `getChannelForVideo` resolves; the others are
        skipped. */
    method CountResolved(recos: seq<VideoId>, counts: Tally<ChannelId>) returns (result: Tally<ChannelId>)
      requires counts.Valid()
      ensures result.Valid()
      ensures result == AddEach(counts, Resolved(recos, apiVideos, videoToChan))
    {
      result := counts;
      for i := 0 to |recos|
        invariant result == AddEach(counts, Resolved(recos[..i], apiVideos, videoToChan))
      {
        var channel := ChannelOf(apiVideos, videoToChan, recos[i]);
        CountStep(counts, recos, i, apiVideos, videoToChan);
        if channel.Some? {
          result := result.Add(channel.value, 1);
        }
      }
      assert recos[..|recos|] == recos;
    }

    /** `scrap_the_video`: the recommendations of the video that neither map
        knows are sent to the API in one call, then each recommendation whose
        channel resolves adds one to that channel in `counts`. */
    method ScrapTheVideo(videoId: VideoId, counts: Tally<ChannelId>, fetch: VideoId -> ScrappedVideo, service: VideoService)
      returns (result: Tally<ChannelId>, ghost recos: seq<VideoId>)
      requires Valid() && counts.Valid()
      modifies this`scrapped, this`scrappedOrder, this`apiVideos, this`videoToChan, this`apiCalls
      ensures Valid() && result.Valid()
      ensures scrapped == Scraped(old(scrapped), videoId, fetch)
      ensures scrappedOrder == ScrapedOrder(old(scrapped), old(scrappedOrder), videoId)
      ensures recos == scrapped[videoId].recommendations
      ensures SentMissing(recos, service, old(apiCalls), old(apiVideos), old(videoToChan), apiCalls, apiVideos, videoToChan)
      ensures result == AddEach(counts, Resolved(recos, apiVideos, videoToChan))
    {
      var rs := GetRecommendations(videoId, fetch);
      recos := rs;
      FetchMissing(rs, service);
      result := CountResolved(rs, counts);
    }

    /** The API call of `scrap_the_video`: the recommendations neither map
        knows are sent in one call, and none is made when there are none. */
    method FetchMissing(recos: seq<VideoId>, service: VideoService)
      modifies this`apiVideos, this`videoToChan, this`apiCalls
      ensures SentMissing(recos, service, old(apiCalls), old(apiVideos), old(videoToChan), apiCalls, apiVideos, videoToChan)
    {
      var batch := UnknownRecos(recos);
      if batch != [] {
        GetVideosFromApi(batch, service(batch));
      }
    }

    /** The first pass of `getChannelToCountFromUploads`: the uploads already
        scraped, in upload order. */
    method CachedUploads(uploads: seq<VideoId>) returns (cached: seq<VideoId>)
      ensures cached == Cached(uploads, scrapped)
    {
      cached := [];
      for i := 0 to |uploads|
        invariant cached == Cached(uploads[..i], scrapped)
      {
        assert uploads[..i + 1][..i] == uploads[..i];
        if uploads[i] in scrapped {
          cached := cached + [uploads[i]];
        }
      }
      assert uploads[..|uploads|] == uploads;
    }

    /** `nb_recos`: how many recommendations the given scraped videos hold. */
    method CountStoredRecos(videos: seq<VideoId>) returns (nbRecos: nat)
      requires forall i :: 0 <= i < |videos| ==> videos[i] in scrapped
      ensures nbRecos == RecoTotal(videos, scrapped)
    {
      nbRecos := 0;
      for i := 0 to |videos|
        invariant nbRecos == RecoTotal(videos[..i], scrapped)
      {
        assert videos[..i + 1] == videos[..i] + [videos[i]];
        RecoTotalSnoc(videos[..i], videos[i], scrapped);
        nbRecos := nbRecos + |scrapped[videos[i]].recommendations|;
      }
      assert videos[..|videos|] == videos;
    }

    /** The choice of videos in `getChannelToCountFromUploads`: the uploads
        already scraped, then fresh uploads until the sample reaches its
        target length. */
    method SelectUploads(uploads: seq<VideoId>, required: int) returns (videos: seq<VideoId>)
      ensures videos == UploadSample(uploads, required, scrapped)
    {
      var cached := CachedUploads(uploads);
      var nbRecos := CountStoredRecos(cached);
      var target := |cached|;
      if nbRecos < required {
        target := |cached| + (required - nbRecos) / EstimatedRecosPerVideo;
      }
      videos := ExtendSample(uploads, required, scrapped, cached, target);
    }

    /** One step of the last loop of `getChannelToCountFromUploads`:
        `scrap_the_video` on `v`, which keeps every stored record and counts
        the channels `step` that `v`'s recommendations resolve to once its
        call is answered. */
    method ScrapAndCount(v: VideoId, counts: Tally<ChannelId>, fetch: VideoId -> ScrappedVideo, service: VideoService,
                         ghost s0: map<VideoId, ScrappedVideo>, ghost done: seq<VideoId>)
      returns (result: Tally<ChannelId>, ghost step: seq<ChannelId>)
      requires Valid() && counts.Valid() && GrownFrom(s0, fetch, done, scrapped)
      modifies this`scrapped, this`scrappedOrder, this`apiVideos, this`videoToChan, this`apiCalls
      ensures Valid() && result.Valid() && GrownFrom(s0, fetch, done + [v], scrapped)
      ensures forall u :: u in old(scrapped) ==> u in scrapped && scrapped[u] == old(scrapped)[u]
      ensures v in scrapped
      ensures SentMissing(scrapped[v].recommendations, service, old(apiCalls), old(apiVideos), old(videoToChan),
                          apiCalls, apiVideos, videoToChan)
      ensures step == Resolved(scrapped[v].recommendations, apiVideos, videoToChan)
      ensures result == AddEach(counts, step)
    {
      ghost var before := scrapped;
      ghost var recos;
      result, recos := ScrapTheVideo(v, counts, fetch, service);
      step := Resolved(recos, apiVideos, videoToChan);
      ScrapedMemo(before, v, fetch);
      GrownSnoc(s0, fetch, done, before, v);
    }

    /** `getChannelToCountFromUploads`: every sampled upload is scraped (or
        read from memory) in sample order, and `counts` holds one count per
        recommendation of the sample whose channel resolved when that video
        was scraped. */
    method GetChannelToCountFromUploads(uploads: seq<VideoId>, required: int, fetch: VideoId -> ScrappedVideo, service: VideoService)
      returns (counts: Tally<ChannelId>, ghost videos: seq<VideoId>, ghost states: seq<ApiState>, ghost steps: seq<seq<ChannelId>>)
      requires Valid()
      modifies this`scrapped, this`scrappedOrder, this`apiVideos, this`videoToChan, this`apiCalls
      ensures Valid() && counts.Valid()
      ensures videos == UploadSample(uploads, required, old(scrapped))
      ensures GrownFrom(old(scrapped), fetch, videos, scrapped)
      ensures Traced(videos, scrapped, service, states, steps)
      ensures states[0] == ApiState(old(apiCalls), old(apiVideos), old(videoToChan))
      ensures states[|videos|] == ApiState(apiCalls, apiVideos, videoToChan)
      ensures counts == AddEach(EmptyTally(), Flatten(steps))
    {
      var vs := SelectUploads(uploads, required);
      videos := vs;
      counts := EmptyTally();
      states, steps := [ApiState(apiCalls, apiVideos, videoToChan)], [];
      assert vs[..0] == [];
      for i := 0 to |vs|
        invariant Valid() && counts.Valid() && GrownFrom(old(scrapped), fetch, vs[..i], scrapped)
        invariant Traced(vs[..i], scrapped, service, states, steps)
        invariant states[0] == ApiState(old(apiCalls), old(apiVideos), old(videoToChan))
        invariant states[i] == ApiState(apiCalls, apiVideos, videoToChan)
        invariant counts == AddEach(EmptyTally(), Flatten(steps))
      {
        PrefixSnoc(vs, i);
        ghost var s := scrapped;
        ghost var step;
        counts, step := ScrapAndCount(vs[i], counts, fetch, service, old(scrapped), vs[..i]);
        ghost var a := ApiState(apiCalls, apiVideos, videoToChan);
        TracedSnoc(vs[..i], s, scrapped, service, states, steps, vs[i], a, step);
        FlattenSnoc(steps, step);
        AddEachAppend(EmptyTally(), Flatten(steps), step);
        states, steps := states + [a], steps + [step];
      }
      assert vs[..|vs|] == vs;
    }

    /** The `_channel_stats` part of `scrap_the_channel`: reuse the stored
        entry, or query the channel and its uploads playlist and store them. */
    method FetchStats(channel: ChannelId, channelApi: ChannelId -> Option<ChannelInfo>, playlistApi: string -> seq<VideoId>)
      returns (entry: Option<ChannelStats>)
      modifies this`channelStats
      ensures entry == StatsFor(old(channelStats), channel, ReuseChannelStats, channelApi, playlistApi)
      ensures channelStats == StatsStored(old(channelStats), channel, ReuseChannelStats, channelApi, playlistApi)
    {
      if channel in channelStats && ReuseChannelStats {
        return Some(channelStats[channel]);
      }
      var response := channelApi(channel);
      if response.None? {
        return None;
      }
      var info := response.value;
      var uploads := playlistApi(info.uploadsPlaylist);
      entry := Some(ChannelStats(uploads, info.title, info.subscriberCount, info.featured));
      channelStats := channelStats[channel := entry.value];
    }

    /** The `scrap_only_featuring_channels` test: with a non-empty list, the
        channel must be in it or feature a channel in it. */
    method FeatureFilter(channel: ChannelId, featured: seq<ChannelId>, featuring: seq<ChannelId>) returns (passes: bool)
      ensures passes <==> PassesFeatureFilter(channel, featured, featuring)
    {
      if |featuring| == 0 {
        return true;
      }
      var notFound := channel !in featuring;
      for i := 0 to |featured|
        invariant notFound <==> channel !in featuring && forall j :: 0 <= j < i ==> featured[j] !in featuring
      {
        if featured[i] in featuring {
          notFound := false;
        }
      }
      passes := !notFound;
    }

    /** The final loop of `scrap_the_channel`: add every count of `counts` to
        `_total_channel_stats`, in the order the keys were first counted. */
    method MergeInto(counts: Tally<ChannelId>)
      requires Valid() && counts.Valid()
      modifies this`total
      ensures Valid()
      ensures total == Merge(old(total), counts)
    {
      ghost var t0 := total;
      var t := total;
      for i := 0 to |counts.keys|
        invariant t.Valid() && t == AddCounts(t0, counts.keys[..i], counts.counts)
      {
        var c := counts.keys[i];
        PrefixSnoc(counts.keys, i);
        AddCountsSnoc(t0, counts.keys[..i], c, counts.counts);
        t := t.Add(c, counts.counts[c]);
      }
      assert counts.keys[..|counts.keys|] == counts.keys;
      total := t;
    }

    /** The last part of `scrap_the_channel`: count the recommendations of
        the sampled uploads and merge the counts into the total. */
    method SampleAndMerge(uploads: seq<VideoId>, required: int, fetch: VideoId -> ScrappedVideo, service: VideoService)
      returns (ghost added: Tally<ChannelId>, ghost videos: seq<VideoId>, ghost states: seq<ApiState>, ghost steps: seq<seq<ChannelId>>)
      requires Valid()
      modifies this`scrapped, this`scrappedOrder, this`apiVideos, this`videoToChan, this`apiCalls, this`total
      ensures Valid()
      ensures Merged(total, scrapped, old(total), old(scrapped), fetch, uploads, required, service,
                     ApiState(old(apiCalls), old(apiVideos), old(videoToChan)), ApiState(apiCalls, apiVideos, videoToChan),
                     added, videos, states, steps)
    {
      var counts;
      counts, videos, states, steps := GetChannelToCountFromUploads(uploads, required, fetch, service);
      MergeInto(counts);
      added := counts;
      MergedIntro(total, old(total), old(scrapped), scrapped, fetch, uploads, required, service,
                  ApiState(old(apiCalls), old(apiVideos), old(videoToChan)), ApiState(apiCalls, apiVideos, videoToChan),
                  counts, videos, states, steps);
    }

    /** What `scrap_the_channel` does with a channel that passed the guard:
        find its statistics, apply the featured-channel filter (which adds the
        channel to the do-not-expand set once more), and sample, scrape and
        merge. */
    method ExpandChannel(channel: ChannelId, required: int, featuring: seq<ChannelId>,
                         fetch: VideoId -> ScrappedVideo, service: VideoService,
                         channelApi: ChannelId -> Option<ChannelInfo>, playlistApi: string -> seq<VideoId>)
      returns (ghost proceeded: bool, ghost added: Tally<ChannelId>, ghost videos: seq<VideoId>,
               ghost states: seq<ApiState>, ghost steps: seq<seq<ChannelId>>)
      requires Valid() && channel in doNotExpand
      modifies this`channelStats, this`scrapped, this`scrappedOrder, this`apiVideos, this`videoToChan, this`apiCalls
      modifies this`total, this`doNotExpand
      ensures Valid() && doNotExpand == old(doNotExpand)
      ensures channelStats == StatsStored(old(channelStats), channel, ReuseChannelStats, channelApi, playlistApi)
      ensures var entry := StatsFor(old(channelStats), channel, ReuseChannelStats, channelApi, playlistApi);
        proceeded <==> entry.Some? && PassesFeatureFilter(channel, entry.value.featured, featuring)
      ensures proceeded ==>
        var entry := StatsFor(old(channelStats), channel, ReuseChannelStats, channelApi, playlistApi);
        Merged(total, scrapped, old(total), old(scrapped), fetch, entry.value.uploads, required, service,
               ApiState(old(apiCalls), old(apiVideos), old(videoToChan)), ApiState(apiCalls, apiVideos, videoToChan),
               added, videos, states, steps)
      ensures !proceeded ==>
        && total == old(total) && scrapped == old(scrapped) && scrappedOrder == old(scrappedOrder)
        && apiVideos == old(apiVideos) && videoToChan == old(videoToChan) && apiCalls == old(apiCalls)
    {
      proceeded, added, videos, states, steps := false, EmptyTally(), [], [], [];
      var entry := FetchStats(channel, channelApi, playlistApi);
      if entry.None? {
        return;
      }
      var passes := FeatureFilter(channel, entry.value.featured, featuring);
      if !passes {
        doNotExpand := doNotExpand + {channel};
        return;
      }
      added, videos, states, steps := SampleAndMerge(entry.value.uploads, required, fetch, service);
      proceeded := true;
    }

    /** `scrap_the_channel`: a channel in `_do_not_expand_channel_ids` is left
        alone; any other channel joins the set on every path, and when its
        statistics are found and it passes the featured-channel filter, its
        uploads are sampled and scraped and the counts are merged into the
        total. */
    method ScrapTheChannel(channel: ChannelId, required: int, featuring: seq<ChannelId>,
                           fetch: VideoId -> ScrappedVideo, service: VideoService,
                           channelApi: ChannelId -> Option<ChannelInfo>, playlistApi: string -> seq<VideoId>)
      returns (ghost proceeded: bool, ghost added: Tally<ChannelId>, ghost videos: seq<VideoId>,
               ghost states: seq<ApiState>, ghost steps: seq<seq<ChannelId>>)
      requires Valid()
      modifies this`channelStats, this`scrapped, this`scrappedOrder, this`apiVideos, this`videoToChan, this`apiCalls
      modifies this`total, this`doNotExpand, this`expansions
      ensures Valid()
      ensures old(channel in doNotExpand) ==> unchanged(this) && !proceeded
      ensures !old(channel in doNotExpand) ==>
        && doNotExpand == old(doNotExpand) + {channel}
        && expansions == old(expansions) + [channel]
        && channelStats == StatsStored(old(channelStats), channel, ReuseChannelStats, channelApi, playlistApi)
      ensures var entry := StatsFor(old(channelStats), channel, ReuseChannelStats, channelApi, playlistApi);
        proceeded <==> !old(channel in doNotExpand) && entry.Some? && PassesFeatureFilter(channel, entry.value.featured, featuring)
      ensures proceeded ==>
        var entry := StatsFor(old(channelStats), channel, ReuseChannelStats, channelApi, playlistApi);
        Merged(total, scrapped, old(total), old(scrapped), fetch, entry.value.uploads, required, service,
               ApiState(old(apiCalls), old(apiVideos), old(videoToChan)), ApiState(apiCalls, apiVideos, videoToChan),
               added, videos, states, steps)
      ensures !proceeded ==>
        && total == old(total) && scrapped == old(scrapped) && scrappedOrder == old(scrappedOrder)
        && apiVideos == old(apiVideos) && videoToChan == old(videoToChan) && apiCalls == old(apiCalls)
    {
      proceeded, added, videos, states, steps := false, EmptyTally(), [], [], [];
      if channel in doNotExpand || NoScrapping {
        return;
      }
      doNotExpand := doNotExpand + {channel};
      expansions := expansions + [channel];
      proceeded, added, videos, states, steps := ExpandChannel(channel, required, featuring, fetch, service, channelApi, playlistApi);
    }

    // -------------------------------------------------------------------------
    // The snowball.

    /** `getChannelsWithEnoughRecos`: the recommendations on the scraped videos
        summed per channel display name, and the names holding more than 50. */
    method GetChannelsWithEnoughRecos() returns (totals: Tally<ChannelName>, enough: seq<ChannelName>)
      requires Valid()
      ensures totals == ChannelRecoTally(scrappedOrder, scrapped)
      ensures enough == EnoughOf(totals, totals.keys)
    {
      totals := EmptyTally();
      for i := 0 to |scrappedOrder|
        invariant totals == ChannelRecoTally(scrappedOrder[..i], scrapped)
      {
        PrefixSnoc(scrappedOrder, i);
        var video := scrapped[scrappedOrder[i]];
        totals := totals.Add(video.channel, |video.recommendations|);
      }
      assert scrappedOrder[..|scrappedOrder|] == scrappedOrder;
      enough := [];
      for i := 0 to |totals.keys|
        invariant enough == EnoughOf(totals, totals.keys[..i])
      {
        PrefixSnoc(totals.keys, i);
        if totals.counts[totals.keys[i]] > EnoughRecos {
          enough := enough + [totals.keys[i]];
        }
      }
      assert totals.keys[..|totals.keys|] == totals.keys;
    }

    /** Since the state (`d0`, `e0`, `t0`) of do-not-expand set, expansions
        and total, exactly the channels of `attempted` were expanded, in
        order, and no total went down. */
    ghost predicate Progress(d0: set<ChannelId>, e0: seq<ChannelId>, t0: Tally<ChannelId>, attempted: seq<ChannelId>)
      reads this`doNotExpand, this`expansions, this`total
    {
      && expansions == e0 + attempted
      && doNotExpand == d0 + Elems(attempted)
      && (forall c :: t0.Count(c) <= total.Count(c))
    }

    /** The body of the candidate loop of `scrap_from_base`: expand the
        channel unless it is in the enough-recos list or the do-not-expand set. */
    method Attempt(channel: ChannelId, enough: seq<ChannelName>, required: int, featuring: seq<ChannelId>,
                   fetch: VideoId -> ScrappedVideo, service: VideoService,
                   channelApi: ChannelId -> Option<ChannelInfo>, playlistApi: string -> seq<VideoId>,
                   ghost d0: set<ChannelId>, ghost e0: seq<ChannelId>, ghost t0: Tally<ChannelId>, ghost attempted: seq<ChannelId>)
      returns (ghost attempted': seq<ChannelId>)
      requires Valid() && Progress(d0, e0, t0, attempted)
      modifies this`channelStats, this`scrapped, this`scrappedOrder, this`apiVideos, this`videoToChan, this`apiCalls
      modifies this`total, this`doNotExpand, this`expansions
      ensures Valid() && Progress(d0, e0, t0, attempted')
      ensures attempted' == attempted + (if channel !in enough && channel !in old(doNotExpand) then [channel] else [])
    {
      attempted' := attempted;
      if channel !in enough && channel !in doNotExpand {
        ghost var before := total;
        var proceeded, added, videos, states, steps := ScrapTheChannel(channel, required, featuring, fetch, service, channelApi, playlistApi);
        ElemsSnoc(attempted, channel);
        attempted' := attempted + [channel];
        assert forall c :: t0.Count(c) <= total.Count(c) by {
          assert forall c :: t0.Count(c) <= before.Count(c) <= total.Count(c);
        }
      }
    }

    /** The candidate loop of `scrap_from_base` over a ranking with no repeats. */
    method AttemptAll(best: seq<ChannelId>, enough: seq<ChannelName>, required: int, featuring: seq<ChannelId>,
                      fetch: VideoId -> ScrappedVideo, service: VideoService,
                      channelApi: ChannelId -> Option<ChannelInfo>, playlistApi: string -> seq<VideoId>)
      returns (ghost attempted: seq<ChannelId>)
      requires Valid() && Distinct(best)
      modifies this`channelStats, this`scrapped, this`scrappedOrder, this`apiVideos, this`videoToChan, this`apiCalls
      modifies this`total, this`doNotExpand, this`expansions
      ensures Valid()
      ensures attempted == Candidates(best, enough, old(doNotExpand))
      ensures Progress(old(doNotExpand), old(expansions), old(total), attempted)
    {
      attempted := [];
      assert Elems(attempted) == {};
      for i := 0 to |best|
        invariant Valid() && Progress(old(doNotExpand), old(expansions), old(total), attempted)
        invariant attempted == Candidates(best[..i], enough, old(doNotExpand))
      {
        var channel := best[i];
        CandidatesSnoc(best, i, enough, old(doNotExpand));
        assert channel !in Elems(attempted) by {
          assert forall j :: 0 <= j < i ==> best[j] != channel;
        }
        attempted := Attempt(channel, enough, required, featuring, fetch, service, channelApi, playlistApi,
                             old(doNotExpand), old(expansions), old(total), attempted);
      }
      assert best[..|best|] == best;
    }

    /** One pass of the `while` loop of `scrap_from_base`: rank the channels by
        total, take the `k` best, and expand each that is neither in the
        enough-recos list nor in the do-not-expand set. `attempted` lists the
        channels expanded, in ranking order. */
    method SnowballRound(k: nat, required: int, featuring: seq<ChannelId>,
                         fetch: VideoId -> ScrappedVideo, service: VideoService,
                         channelApi: ChannelId -> Option<ChannelInfo>, playlistApi: string -> seq<VideoId>)
      returns (ghost top: seq<ChannelId>, ghost attempted: seq<ChannelId>)
      requires Valid()
      modifies this`channelStats, this`scrapped, this`scrappedOrder, this`apiVideos, this`videoToChan, this`apiCalls
      modifies this`total, this`doNotExpand, this`expansions
      ensures Valid()
      ensures top == Take(SortDesc(old(total).keys, old(total).counts), k)
      ensures attempted == Candidates(top, EnoughOf(ChannelRecoTally(old(scrappedOrder), old(scrapped)), ChannelRecoTally(old(scrappedOrder), old(scrapped)).keys), old(doNotExpand))
      ensures Progress(old(doNotExpand), old(expansions), old(total), attempted)
    {
      var ranking := SortDesc(total.keys, total.counts);
      var unused, enough := GetChannelsWithEnoughRecos();
      var best := Take(ranking, k);
      top := best;
      assert Distinct(best) by {
        TopRanking(total, k);
        assert forall i :: 0 <= i < |best| ==> best[i] == ranking[i];
      }
      attempted := AttemptAll(best, enough, required, featuring, fetch, service, channelApi, playlistApi);
    }

    // -------------------------------------------------------------------------
    // Reports.

    /** The first loop of `write_result_file`: how often each video is
        recommended by the scraped videos, in `_scrapped_videos` order. */
    method CountRecommendations() returns (counts: Tally<VideoId>)
      requires Valid()
      ensures counts == RecoCounts(scrappedOrder, scrapped)
    {
      counts := EmptyTally();
      for i := 0 to |scrappedOrder|
        invariant counts == AddEach(EmptyTally(), AllRecos(scrappedOrder[..i], scrapped))
      {
        var recos := scrapped[scrappedOrder[i]].recommendations;
        RecoCountsStep(scrappedOrder, i, scrapped);
        counts := CountEach(counts, recos);
      }
      PrefixAll(scrappedOrder);
    }

    /** `write_result_file` without the file: the rows for the videos
        recommended more than once, most recommended first, described by the
        API record when there is one and else by the scraped page, and how
        many such videos had a record (`nb_ok_vids`) or none (`nb_not_ok_vids`). */
    method WriteResultFile() returns (rows: seq<ResultRow>, nbOk: nat, nbNotOk: nat)
      requires Valid()
      ensures var counts := RecoCounts(scrappedOrder, scrapped);
        var ranking := SortDesc(counts.keys, counts.counts);
        && rows == Rows(ranking, counts, apiVideos, scrapped)
        && nbNotOk == |Unfound(ranking, counts, apiVideos, scrapped)|
        && nbOk + nbNotOk == |Popular(ranking, counts)|
      ensures nbOk == |rows|
      ensures NonIncreasing(rows)
    {
      var counts := CountRecommendations();
      var ranking := SortDesc(counts.keys, counts.counts);
      rows, nbOk, nbNotOk := [], 0, 0;
      for i := 0 to |ranking|
        invariant rows == Rows(ranking[..i], counts, apiVideos, scrapped)
        invariant nbNotOk == |Unfound(ranking[..i], counts, apiVideos, scrapped)|
        invariant nbOk == |rows|
      {
        var video := ranking[i];
        RowsSnoc(ranking, i, counts, apiVideos, scrapped);
        var nb := counts.Count(video);
        if nb > 1 {
          if video in apiVideos {
            var info := apiVideos[video];
            rows := rows + [ResultRow(video, info.publishedAt.GetOr(""), info.viewCount.GetOr(-1), nb, info.title, info.channelTitle)];
            nbOk := nbOk + 1;
          } else if video in scrapped {
            var info := scrapped[video];
            rows := rows + [ResultRow(video, info.pubdate, info.views, nb, info.title, info.channel)];
            nbOk := nbOk + 1;
          } else {
            nbNotOk := nbNotOk + 1;
          }
        }
      }
      assert ranking[..|ranking|] == ranking;
      RowsSplit(ranking, counts, apiVideos, scrapped);
      SortDescFacts(counts.keys, counts.counts);
      RowsOrdered(ranking, counts, apiVideos, scrapped);
    }

    /** `describe_channels` without the printing: the recommendations counted
        per channel, and the 500 channels it would print, most recommended
        first. */
    method DescribeChannels() returns (counts: Tally<ChannelId>, top: seq<ChannelId>)
      requires Valid()
      ensures counts == AddEach(EmptyTally(), ChannelsOrUnknown(AllRecos(scrappedOrder, scrapped), videoToChan))
      ensures top == Take(SortDesc(counts.keys, counts.counts), DescribedChannels)
    {
      counts := CountDescribed(scrappedOrder, scrapped, videoToChan);
      top := Take(SortDesc(counts.keys, counts.counts), DescribedChannels);
    }

    // -------------------------------------------------------------------------
    // `scrap_from_base`.

    /** The expansions so far extend `e0` and no total is below `t0`'s. */
    ghost predicate Extends(e0: seq<ChannelId>, t0: Tally<ChannelId>)
      reads this`expansions, this`total
    {
      && |e0| <= |expansions| && expansions[..|e0|] == e0
      && (forall c :: t0.Count(c) <= total.Count(c))
    }

    /** One step of the first loop of `scrap_from_base`: expand a base
        channel with no featured-channel filter. */
    method ScrapBaseChannel(channel: ChannelId, required: int,
                            fetch: VideoId -> ScrappedVideo, service: VideoService,
                            channelApi: ChannelId -> Option<ChannelInfo>, playlistApi: string -> seq<VideoId>)
      requires Valid()
      modifies this`channelStats, this`scrapped, this`scrappedOrder, this`apiVideos, this`videoToChan, this`apiCalls
      modifies this`total, this`doNotExpand, this`expansions
      ensures Valid() && Extends(old(expansions), old(total))
      ensures doNotExpand == old(doNotExpand) + {channel}
    {
      var proceeded, added, videos, states, steps := ScrapTheChannel(channel, required, [], fetch, service, channelApi, playlistApi);
      assert expansions[..|old(expansions)|] == old(expansions);
    }

    /** The first loop of `scrap_from_base`: expand every base channel. */
    method ScrapBase(base: seq<ChannelId>, required: int,
                     fetch: VideoId -> ScrappedVideo, service: VideoService,
                     channelApi: ChannelId -> Option<ChannelInfo>, playlistApi: string -> seq<VideoId>)
      requires Valid()
      modifies this`channelStats, this`scrapped, this`scrappedOrder, this`apiVideos, this`videoToChan, this`apiCalls
      modifies this`total, this`doNotExpand, this`expansions
      ensures Valid() && Extends(old(expansions), old(total))
      ensures doNotExpand == old(doNotExpand) + Elems(base)
    {
      for i := 0 to |base|
        invariant Valid() && Extends(old(expansions), old(total))
        invariant doNotExpand == old(doNotExpand) + Elems(base[..i])
      {
        ghost var e, t := expansions, total;
        ScrapBaseChannel(base[i], required, fetch, service, channelApi, playlistApi);
        PrefixSnoc(base, i);
        ElemsSnoc(base[..i], base[i]);
        assert Extends(old(expansions), old(total)) by {
          assert expansions[..|e|] == e;
          assert forall c :: old(total).Count(c) <= t.Count(c) <= total.Count(c);
        }
      }
      PrefixAll(base);
    }

    /** The blacklist read of `scrap_from_base`: every listed channel joins
        the do-not-expand set. */
    method AddBlacklist(blacklist: seq<ChannelId>)
      requires Valid()
      modifies this`doNotExpand
      ensures Valid()
      ensures doNotExpand == old(doNotExpand) + Elems(blacklist)
    {
      for i := 0 to |blacklist|
        invariant Valid()
        invariant doNotExpand == old(doNotExpand) + Elems(blacklist[..i])
      {
        PrefixSnoc(blacklist, i);
        ElemsSnoc(blacklist[..i], blacklist[i]);
        doNotExpand := doNotExpand + {blacklist[i]};
      }
      PrefixAll(blacklist);
    }

    /** The `while` loop of `scrap_from_base`: round `k` tries the `k` best
        channels, until the base and the extra channels number `maxChannels`.
        A channel of the do-not-expand set, hence a blacklisted one, is never
        expanded. */
    method Snowball(nbBase: nat, maxChannels: int, required: int, featuring: seq<ChannelId>,
                    fetch: VideoId -> ScrappedVideo, service: VideoService,
                    channelApi: ChannelId -> Option<ChannelInfo>, playlistApi: string -> seq<VideoId>)
      returns (rounds: nat)
      requires Valid()
      modifies this`channelStats, this`scrapped, this`scrappedOrder, this`apiVideos, this`videoToChan, this`apiCalls
      modifies this`total, this`doNotExpand, this`expansions
      ensures Valid() && Extends(old(expansions), old(total))
      ensures rounds == if maxChannels > nbBase then maxChannels - nbBase else 0
      ensures old(doNotExpand) <= doNotExpand
      ensures forall j :: |old(expansions)| <= j < |expansions| ==> expansions[j] !in old(doNotExpand)
    {
      rounds := 0;
      while rounds + nbBase < maxChannels
        invariant Valid() && Extends(old(expansions), old(total))
        invariant rounds <= if maxChannels > nbBase then maxChannels - nbBase else 0
        invariant old(doNotExpand) <= doNotExpand
        invariant forall j :: |old(expansions)| <= j < |expansions| ==> expansions[j] !in old(doNotExpand)
        decreases maxChannels - rounds - nbBase
      {
        rounds := rounds + 1;
        ghost var d, e, t := doNotExpand, expansions, total;
        var top, attempted := SnowballRound(rounds, required, featuring, fetch, service, channelApi, playlistApi);
        FreshAppend(old(expansions), e, attempted, old(doNotExpand), d);
        CountsGrow(old(total), t, total);
      }
    }

    /** The crawl of `scrap_from_base`: expand the base channels, add the
        blacklist to the do-not-expand set and run the snowball rounds, with
        the base as the featured-channel filter when `onlyFeaturingBase`. */
    method Crawl(base: seq<ChannelId>, maxChannels: int, required: int, onlyFeaturingBase: bool,
                 blacklist: seq<ChannelId>, fetch: VideoId -> ScrappedVideo, service: VideoService,
                 channelApi: ChannelId -> Option<ChannelInfo>, playlistApi: string -> seq<VideoId>)
      returns (rounds: nat, ghost baseEnd: nat)
      requires Valid()
      modifies this`channelStats, this`scrapped, this`scrappedOrder, this`apiVideos, this`videoToChan, this`apiCalls
      modifies this`total, this`doNotExpand, this`expansions
      ensures Valid() && Extends(old(expansions), old(total))
      ensures rounds == if maxChannels > |base| then maxChannels - |base| else 0
      ensures |old(expansions)| <= baseEnd <= |expansions|
      ensures forall j :: baseEnd <= j < |expansions| ==> expansions[j] !in blacklist && expansions[j] !in base
      ensures forall c :: c in blacklist || c in base ==> c in doNotExpand
    {
      var featuring := if onlyFeaturingBase then base else [];
      ScrapBase(base, required, fetch, service, channelApi, playlistApi);
      baseEnd := |expansions|;
      AddBlacklist(blacklist);
      ghost var e, t, d := expansions, total, doNotExpand;
      assert forall c :: c in blacklist || c in base ==> c in d by {
        assert forall c :: c in blacklist ==> c in Elems(blacklist);
        assert forall c :: c in base ==> c in Elems(base);
      }
      rounds := Snowball(|base|, maxChannels, required, featuring, fetch, service, channelApi, playlistApi);
      assert Extends(old(expansions), old(total)) by {
        assert expansions[..|e|] == e;
        assert forall c :: old(total).Count(c) <= t.Count(c) <= total.Count(c);
      }
    }

    /** `scrap_from_base` without the saves: the crawl, then the API data of
        every scraped video and recommendation, then the result file. */
    method ScrapFromBase(base: seq<ChannelId>, maxChannels: int, required: int, onlyFeaturingBase: bool,
                         blacklist: seq<ChannelId>, fetch: VideoId -> ScrappedVideo, service: VideoService,
                         channelApi: ChannelId -> Option<ChannelInfo>, playlistApi: string -> seq<VideoId>)
      returns (rows: seq<ResultRow>, ghost rounds: nat, ghost baseEnd: nat)
      requires Valid()
      modifies this`channelStats, this`scrapped, this`scrappedOrder, this`apiVideos, this`videoToChan, this`apiCalls
      modifies this`total, this`doNotExpand, this`expansions
      ensures Valid() && Extends(old(expansions), old(total))
      ensures rounds == if maxChannels > |base| then maxChannels - |base| else 0
      ensures |old(expansions)| <= baseEnd <= |expansions|
      ensures forall j :: baseEnd <= j < |expansions| ==> expansions[j] !in blacklist && expansions[j] !in base
      ensures forall c :: c in blacklist || c in base ==> c in doNotExpand
      ensures var counts := RecoCounts(scrappedOrder, scrapped);
        rows == Rows(SortDesc(counts.keys, counts.counts), counts, apiVideos, scrapped)
      ensures NonIncreasing(rows)
    {
      rounds, baseEnd := Crawl(base, maxChannels, required, onlyFeaturingBase, blacklist,
                               fetch, service, channelApi, playlistApi);
      rows := Report(service);
    }

    /** The end of `scrap_from_base`: the API data, then the result file. */
    method Report(service: VideoService) returns (rows: seq<ResultRow>)
      requires Valid()
      modifies this`apiVideos, this`videoToChan, this`apiCalls
      ensures var counts := RecoCounts(scrappedOrder, scrapped);
        rows == Rows(SortDesc(counts.keys, counts.counts), counts, apiVideos, scrapped)
      ensures NonIncreasing(rows)
    {
      ghost var calls := GetAllApiData(service);
      var nbOk, nbNotOk;
      rows, nbOk, nbNotOk := WriteResultFile();
    }
  }
}
