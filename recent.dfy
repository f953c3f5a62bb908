/** The aggregations of `compute_recent_files` over the daily snapshots, which
    are listed newest first as the dates are: the purge of videos whose page
    gave no title, the channels recommending each video (per date and over all
    dates), the counts of recent recommending channels, the channels scraped,
    the recent view increase, and the small channel filters. */
module Recent {
  import opened Common
  import opened Collections
  import opened Records
  import opened Dates
  import opened Estimator

  /** The sentinel, spelled as in the program, for a record without a channel. */
  const UnknownChannel := "UNKNONW CHANNEL"
  /** A channel name no channel has (`impossible_chan_name`). */
  const ImpossibleChannelName := "1234dfs5678fsd9009fsdhfewirioffdsdf"
  /** `getSortedChannels` keeps channels with more subscribers than this. */
  const BigChannel := 100000

  // ---------------------------------------------------------------------------
  // The purge of empty titles.

  /** A snapshot without the videos whose page gave no title. */
  function WithTitles(snap: Snapshot): (r: Snapshot)
    ensures forall v :: v in r <==> v in snap && snap[v].title != ""
    ensures forall v :: v in r ==> r[v] == snap[v]
  {
    map v | v in snap && snap[v].title != "" :: snap[v]
  }

  /** The inner loop of the purge: delete every video of the day with an empty title. */
  method PurgeTitles(snap: Snapshot) returns (r: Snapshot)
    ensures r == WithTitles(snap)
  {
    r := snap;
    var keys := snap.Keys;
    while keys != {}
      invariant keys <= snap.Keys
      invariant forall v :: v in r <==> v in snap && (v in keys || snap[v].title != "")
      invariant forall v :: v in r ==> r[v] == snap[v]
      decreases keys
    {
      var v :| v in keys;
      if r[v].title == "" {
        r := r - {v};
      }
      keys := keys - {v};
    }
  }

  /** The purge of every date. */
  method PurgeHistory(h: seq<Snapshot>) returns (r: seq<Snapshot>)
    ensures |r| == |h| && forall d :: 0 <= d < |h| ==> r[d] == WithTitles(h[d])
  {
    r := [];
    for d := 0 to |h|
      invariant |r| == d && forall k :: 0 <= k < d ==> r[k] == WithTitles(h[k])
    {
      var purged := PurgeTitles(h[d]);
      r := r + [purged];
    }
  }

  /** Purging twice is purging once. */
  lemma PurgeIdempotent(snap: Snapshot)
    ensures WithTitles(WithTitles(snap)) == WithTitles(snap)
  {
  }

  // ---------------------------------------------------------------------------
  // Recommending channels: `video_date_to_chans` and `video_to_chans`.

  /** The channels of the videos among `vs` of the day that recommend `reco`. */
  ghost function RecommendersIn(snap: Snapshot, vs: set<VideoId>, reco: VideoId): set<ChannelName>
  {
    set v | v in vs && v in snap && reco in snap[v].recommendations :: snap[v].channel
  }

  /** The channels of the day's videos that recommend `reco`. */
  ghost function DayRecommenders(snap: Snapshot, reco: VideoId): set<ChannelName>
  {
    RecommendersIn(snap, snap.Keys, reco)
  }

  /** `video_date_to_chans[date]`: a key for each recommended video, mapped to
      the channels of the day's videos that recommend it. */
  ghost predicate DayMap(snap: Snapshot, m: map<VideoId, set<ChannelName>>)
  {
    forall r :: (r in m <==> DayRecommenders(snap, r) != {}) && (r in m ==> m[r] == DayRecommenders(snap, r))
  }

  /** `d.get(r, set())` on a dictionary of sets. */
  function SetOf<K, V>(m: map<K, set<V>>, r: K): set<V>
  {
    if r in m then m[r] else {}
  }

  /** The inner loop over one video's recommendations. */
  method AddRecommender(m: map<VideoId, set<ChannelName>>, recos: seq<VideoId>, channel: ChannelName)
    returns (m': map<VideoId, set<ChannelName>>)
    ensures forall r :: (r in m' <==> r in m || r in recos)
    ensures forall r :: SetOf(m', r) == SetOf(m, r) + (if r in recos then {channel} else {})
  {
    m' := m;
    for k := 0 to |recos|
      invariant forall r :: (r in m' <==> r in m || r in recos[..k])
      invariant forall r :: SetOf(m', r) == SetOf(m, r) + (if r in recos[..k] then {channel} else {})
    {
      PrefixSnoc(recos, k);
      m' := m'[recos[k] := SetOf(m', recos[k]) + {channel}];
    }
    PrefixAll(recos);
  }

  /** Adding one more video's recommendations to what the videos of `vs` gave. */
  lemma RecommendersStep(snap: Snapshot, vs: set<VideoId>, v: VideoId, r: VideoId)
    requires v in snap
    ensures RecommendersIn(snap, vs + {v}, r)
         == RecommendersIn(snap, vs, r) + (if r in snap[v].recommendations then {snap[v].channel} else {})
  {
  }

  /** The loop over the videos of one date. */
  method DayRecommendersMap(snap: Snapshot) returns (m: map<VideoId, set<ChannelName>>)
    ensures DayMap(snap, m)
  {
    m := map[];
    var rest := snap.Keys;
    while rest != {}
      invariant rest <= snap.Keys
      invariant forall r :: (r in m <==> RecommendersIn(snap, snap.Keys - rest, r) != {})
      invariant forall r :: SetOf(m, r) == RecommendersIn(snap, snap.Keys - rest, r)
      decreases rest
    {
      var v :| v in rest;
      ghost var done := snap.Keys - rest;
      m := AddRecommender(m, snap[v].recommendations, snap[v].channel);
      forall r ensures SetOf(m, r) == RecommendersIn(snap, done + {v}, r) {
        RecommendersStep(snap, done, v, r);
      }
      assert snap.Keys - (rest - {v}) == done + {v};
      rest := rest - {v};
    }
  }

  /** The channels that recommend `r` on the first `n` dates. */
  ghost function UnionUpTo(days: seq<map<VideoId, set<ChannelName>>>, n: nat, r: VideoId): set<ChannelName>
    requires n <= |days|
  {
    if n == 0 then {} else UnionUpTo(days, n - 1, r) + SetOf(days[n - 1], r)
  }

  /** One more date's recommenders, added into the overall map. */
  function AddDay(all: map<VideoId, set<ChannelName>>, day: map<VideoId, set<ChannelName>>): (r: map<VideoId, set<ChannelName>>)
    ensures forall x :: x in r <==> x in all || x in day
    ensures forall x :: SetOf(r, x) == SetOf(all, x) + SetOf(day, x)
  {
    map x | x in all.Keys + day.Keys :: SetOf(all, x) + SetOf(day, x)
  }

  /** The loop over the dates: `video_date_to_chans` as one map per date, and
      `video_to_chans`, whose entry for `r` is every channel recommending it on
      some date. */
  method Recommenders(h: seq<Snapshot>) returns (byDay: seq<map<VideoId, set<ChannelName>>>, all: map<VideoId, set<ChannelName>>)
    ensures |byDay| == |h| && forall d :: 0 <= d < |h| ==> DayMap(h[d], byDay[d])
    ensures forall r :: SetOf(all, r) == UnionUpTo(byDay, |byDay|, r)
    ensures forall r :: r in all <==> UnionUpTo(byDay, |byDay|, r) != {}
  {
    byDay := [];
    all := map[];
    for d := 0 to |h|
      invariant |byDay| == d && forall k :: 0 <= k < d ==> DayMap(h[k], byDay[k])
      invariant forall r :: SetOf(all, r) == UnionUpTo(byDay, d, r)
      invariant forall r :: r in all <==> UnionUpTo(byDay, d, r) != {}
    {
      var day := DayRecommendersMap(h[d]);
      all := AddDay(all, day);
      ghost var prev := byDay;
      byDay := byDay + [day];
      UnionPrefix(byDay, d);
      assert byDay[..d] == prev;
      forall k | 0 <= k < d + 1 ensures DayMap(h[k], byDay[k]) {
        if k < d {
          assert byDay[k] == prev[k];
        }
      }
    }
  }

  /** Unions over a prefix only read the prefix. */
  lemma {:induction false} UnionPrefix(days: seq<map<VideoId, set<ChannelName>>>, n: nat)
    requires n <= |days|
    ensures forall r :: UnionUpTo(days[..n], n, r) == UnionUpTo(days, n, r)
  {
    forall r ensures UnionUpTo(days[..n], n, r) == UnionUpTo(days, n, r) {
      UnionPrefixAt(days, n, n, r);
    }
  }

  lemma {:induction false} UnionPrefixAt(days: seq<map<VideoId, set<ChannelName>>>, n: nat, k: nat, r: VideoId)
    requires k <= n <= |days|
    ensures UnionUpTo(days[..n], k, r) == UnionUpTo(days, k, r)
  {
    if k > 0 {
      UnionPrefixAt(days, n, k - 1, r);
    }
  }

  /** `video_to_chans[r]` is every channel one of whose videos recommends `r`
      on one of the first `n` dates. */
  lemma {:induction false} UnionIsRecommenders(h: seq<Snapshot>, byDay: seq<map<VideoId, set<ChannelName>>>, n: nat, r: VideoId, c: ChannelName)
    requires |byDay| == |h| && n <= |h| && forall d :: 0 <= d < |h| ==> DayMap(h[d], byDay[d])
    ensures c in UnionUpTo(byDay, n, r) <==>
      exists d, v :: 0 <= d < n && v in h[d] && r in h[d][v].recommendations && h[d][v].channel == c
  {
    if n > 0 {
      UnionIsRecommenders(h, byDay, n - 1, r, c);
      var d := n - 1;
      assert DayMap(h[d], byDay[d]);
      assert SetOf(byDay[d], r) == DayRecommenders(h[d], r);
      if c in DayRecommenders(h[d], r) {
        var v :| v in h[d] && r in h[d][v].recommendations && h[d][v].channel == c;
      }
    }
  }

  // ---------------------------------------------------------------------------
  // `video_to_max_chans`.

  /** The most channels recommending `v` on one of the first `n` dates. */
  function MaxChans(days: seq<map<VideoId, set<ChannelName>>>, n: nat, v: VideoId): nat
    requires n <= |days|
  {
    if n == 0 then 0
    else
      var before := MaxChans(days, n - 1, v);
      if v in days[n - 1] && |days[n - 1][v]| > before then |days[n - 1][v]| else before
  }

  /** The maximum is reached on some date (or is 0) and no date exceeds it. */
  lemma {:induction false} MaxChansFacts(days: seq<map<VideoId, set<ChannelName>>>, n: nat, v: VideoId)
    requires n <= |days|
    ensures forall d :: 0 <= d < n ==> |SetOf(days[d], v)| <= MaxChans(days, n, v)
    ensures MaxChans(days, n, v) == 0 || exists d :: 0 <= d < n && |SetOf(days[d], v)| == MaxChans(days, n, v)
  {
    if n > 0 {
      MaxChansFacts(days, n - 1, v);
    }
  }

  /** No single date has more recommending channels than all dates together. */
  lemma {:induction false} MaxChansWithinUnion(days: seq<map<VideoId, set<ChannelName>>>, n: nat, v: VideoId)
    requires n <= |days|
    ensures MaxChans(days, n, v) <= |UnionUpTo(days, n, v)|
  {
    if n > 0 {
      MaxChansWithinUnion(days, n - 1, v);
      SubsetCard(UnionUpTo(days, n - 1, v), UnionUpTo(days, n, v));
      SubsetCard(SetOf(days[n - 1], v), UnionUpTo(days, n, v));
    }
  }

  lemma SubsetCard<T>(a: set<T>, b: set<T>)
    requires a <= b
    ensures |a| <= |b|
  {
    assert b == a + (b - a);
  }

  /** The loops computing `video_to_max_chans` for every recommended video. */
  method MaxRecommenders(byDay: seq<map<VideoId, set<ChannelName>>>, all: map<VideoId, set<ChannelName>>)
    returns (mx: map<VideoId, nat>)
    ensures mx.Keys == all.Keys
    ensures forall v :: v in mx ==> mx[v] == MaxChans(byDay, |byDay|, v)
  {
    mx := map[];
    var rest := all.Keys;
    while rest != {}
      invariant rest <= all.Keys && mx.Keys == all.Keys - rest
      invariant forall v :: v in mx ==> mx[v] == MaxChans(byDay, |byDay|, v)
      decreases rest
    {
      var v :| v in rest;
      var best: nat := 0;
      for d := 0 to |byDay|
        invariant best == MaxChans(byDay, d, v)
      {
        if v in byDay[d] && |byDay[d][v]| > best {
          best := |byDay[d][v]|;
        }
      }
      mx := mx[v := best];
      rest := rest - {v};
    }
  }

  // ---------------------------------------------------------------------------
  // `compute_recent_recos`.

  /** `dates[0:dayz]` covers the first `dayz` dates, or all of them. */
  function Within(dayz: nat, n: nat): nat
  {
    if dayz <= n then dayz else n
  }

  /** For every video, the number of channels recommending it on the newest `dayz` dates. */
  method RecentRecos(byDay: seq<map<VideoId, set<ChannelName>>>, videos: set<VideoId>, dayz: nat)
    returns (m: map<VideoId, nat>)
    ensures m.Keys == videos
    ensures forall v :: v in m ==> m[v] == |UnionUpTo(byDay, Within(dayz, |byDay|), v)|
  {
    m := map[];
    var rest := videos;
    var k := Within(dayz, |byDay|);
    while rest != {}
      invariant rest <= videos && m.Keys == videos - rest
      invariant forall v :: v in m ==> m[v] == |UnionUpTo(byDay, k, v)|
      decreases rest
    {
      var v :| v in rest;
      var chans: set<ChannelName> := {};
      for d := 0 to k
        invariant chans == UnionUpTo(byDay, d, v)
      {
        chans := chans + SetOf(byDay[d], v);
      }
      m := m[v := |chans|];
      rest := rest - {v};
    }
  }

  /** Looking at more days never lowers a video's count of recommending channels,
      and no count exceeds its number of recommending channels over all dates. */
  lemma {:induction false} RecentRecosMonotone(byDay: seq<map<VideoId, set<ChannelName>>>, j: nat, k: nat, v: VideoId)
    requires j <= k <= |byDay|
    ensures UnionUpTo(byDay, j, v) <= UnionUpTo(byDay, k, v)
    ensures |UnionUpTo(byDay, j, v)| <= |UnionUpTo(byDay, k, v)|
    decreases k - j
  {
    if j < k {
      RecentRecosMonotone(byDay, j, k - 1, v);
    }
    SubsetCard(UnionUpTo(byDay, j, v), UnionUpTo(byDay, k, v));
  }

  // ---------------------------------------------------------------------------
  // `compute_scrapped_channels`.

  /** The ids and names, other than the sentinel, of the channels of the
      videos among `vs` scraped on one date. */
  ghost function ChannelsOf(snap: Snapshot, vs: set<VideoId>): set<string>
  {
    (set v | v in vs && v in snap && snap[v].channelId != UnknownChannel :: snap[v].channelId)
      + (set v | v in vs && v in snap && snap[v].channel != UnknownChannel :: snap[v].channel)
  }

  /** The id and name a video adds, unless they are the sentinel. */
  function Named(video: ScrappedVideo): set<string>
  {
    (if video.channelId != UnknownChannel then {video.channelId} else {})
      + (if video.channel != UnknownChannel then {video.channel} else {})
  }

  lemma ChannelsStep(snap: Snapshot, vs: set<VideoId>, v: VideoId)
    requires v in snap
    ensures ChannelsOf(snap, vs + {v}) == ChannelsOf(snap, vs) + Named(snap[v])
  {
  }

  lemma ChannelsOfFacts(snap: Snapshot, vs: set<VideoId>)
    ensures UnknownChannel !in ChannelsOf(snap, vs)
    ensures forall v :: v in vs && v in snap && snap[v].channelId != UnknownChannel ==> snap[v].channelId in ChannelsOf(snap, vs)
    ensures forall v :: v in vs && v in snap && snap[v].channel != UnknownChannel ==> snap[v].channel in ChannelsOf(snap, vs)
  {
  }

  /** The channels scraped on the first `n` dates. */
  ghost function ScrappedChannelsUpTo(h: seq<Snapshot>, n: nat): set<string>
    requires n <= |h|
  {
    if n == 0 then {} else ScrappedChannelsUpTo(h, n - 1) + ChannelsOf(h[n - 1], h[n - 1].Keys)
  }

  /** The loop over one date's videos. */
  method AddScrappedChannels(chans: set<string>, snap: Snapshot) returns (r: set<string>)
    ensures r == chans + ChannelsOf(snap, snap.Keys)
  {
    r := chans;
    var rest := snap.Keys;
    ghost var done: set<VideoId> := {};
    while rest != {}
      invariant done + rest == snap.Keys
      invariant r == chans + ChannelsOf(snap, done)
      decreases |rest|
    {
      var v :| v in rest;
      ChannelsStep(snap, done, v);
      r := r + Named(snap[v]);
      rest, done := rest - {v}, done + {v};
    }
  }

  /** The channels scraped on the newest `dayz` dates. */
  method ScrappedChannels(h: seq<Snapshot>, dayz: nat) returns (chans: set<string>)
    ensures chans == ScrappedChannelsUpTo(h, Within(dayz, |h|))
  {
    chans := {};
    for d := 0 to Within(dayz, |h|)
      invariant chans == ScrappedChannelsUpTo(h, d)
    {
      var next := AddScrappedChannels(chans, h[d]);
      assert next == ScrappedChannelsUpTo(h, d + 1) by {
        ScrappedStep(h, d, chans, next);
      }
      chans := next;
    }
  }

  lemma ScrappedStep(h: seq<Snapshot>, d: nat, chans: set<string>, next: set<string>)
    requires d < |h| && chans == ScrappedChannelsUpTo(h, d)
    requires next == chans + ChannelsOf(h[d], h[d].Keys)
    ensures next == ScrappedChannelsUpTo(h, d + 1)
  {
  }

  /** The sentinel is never reported as a channel. */
  lemma {:induction false} SentinelNotScrapped(h: seq<Snapshot>, n: nat)
    requires n <= |h|
    ensures UnknownChannel !in ScrappedChannelsUpTo(h, n)
  {
    if n > 0 {
      SentinelNotScrapped(h, n - 1);
      ChannelsOfFacts(h[n - 1], h[n - 1].Keys);
    }
  }

  /** Every channel id and name other than the sentinel of a video scraped on
      those dates is reported. */
  lemma {:induction false} ScrappedIncluded(h: seq<Snapshot>, n: nat, d: nat, v: VideoId)
    requires d < n <= |h| && v in h[d]
    ensures h[d][v].channelId != UnknownChannel ==> h[d][v].channelId in ScrappedChannelsUpTo(h, n)
    ensures h[d][v].channel != UnknownChannel ==> h[d][v].channel in ScrappedChannelsUpTo(h, n)
  {
    if d < n - 1 {
      ScrappedIncluded(h, n - 1, d, v);
    } else {
      ChannelsOfFacts(h[d], h[d].Keys);
    }
  }

  /** More days give more channels. */
  lemma {:induction false} ScrappedMonotone(h: seq<Snapshot>, j: nat, n: nat)
    requires j <= n <= |h|
    ensures ScrappedChannelsUpTo(h, j) <= ScrappedChannelsUpTo(h, n)
    decreases n
  {
    if j < n {
      ScrappedMonotone(h, j, n - 1);
    }
  }

  // ---------------------------------------------------------------------------
  // `compute_recent_views`.

  /** The view count read for `v` on one date: the API's, else the scraped one,
      else -1. */
  function DayViews(api: map<VideoId, ApiVideo>, snap: Snapshot, v: VideoId): int
  {
    if v in api then api[v].viewCount.GetOr(-1)
    else if v in snap then snap[v].views
    else -1
  }

  /** `view_history`: the view counts of `v`, oldest date first (the dates are
      given newest first). */
  function ViewHistory(apiDays: seq<map<VideoId, ApiVideo>>, h: seq<Snapshot>, v: VideoId): (s: seq<int>)
    requires |apiDays| == |h|
    ensures |s| == |h|
    ensures forall i :: 0 <= i < |s| ==> s[i] == DayViews(apiDays[|h| - 1 - i], h[|h| - 1 - i], v)
  {
    if h == [] then []
    else ViewHistory(apiDays[1..], h[1..], v) + [DayViews(apiDays[0], h[0], v)]
  }

  /** Python's `s[-dayz:]`: the last `dayz` entries, or all of them when `dayz`
      is 0 (since `-0` is `0`) or exceeds the length. */
  function LastN<T>(s: seq<T>, dayz: nat): (r: seq<T>)
    ensures dayz == 0 || dayz >= |s| ==> r == s
    ensures 0 < dayz < |s| ==> |r| == dayz
  {
    if dayz == 0 || dayz >= |s| then s else s[|s| - dayz..]
  }

  /** The window is a suffix of the history. */
  lemma LastNSuffix<T>(s: seq<T>, dayz: nat)
    ensures |LastN(s, dayz)| <= |s| && LastN(s, dayz) == s[|s| - |LastN(s, dayz)|..]
  {
  }

  function Max(s: seq<int>): (m: int)
    requires s != []
    ensures m in s && forall x :: x in s ==> x <= m
  {
    if |s| == 1 then s[0]
    else
      var rest := Max(s[1..]);
      assert forall x :: x in s ==> x == s[0] || x in s[1..];
      if s[0] >= rest then s[0] else rest
  }

  /** `min(x for x in s if x > 0)`. */
  function MinPositive(s: seq<int>): (m: int)
    requires exists x :: x in s && x > 0
    ensures m in s && m > 0 && forall x :: x in s && x > 0 ==> m <= x
  {
    assert forall x :: x in s ==> x == s[0] || x in s[1..];
    if s[0] > 0 && (forall x :: x in s[1..] ==> x <= 0 || s[0] <= x) then s[0]
    else
      assert exists x :: x in s[1..] && x > 0;
      MinPositive(s[1..])
  }

  /** The increase over a window of view counts: the largest count when the
      video was published within the window (if positive), else the largest
      minus the smallest positive count (if the largest is positive). */
  function WindowIncrease(window: seq<int>, publishedWithin: bool): (r: Option<int>)
    requires window != []
  {
    if publishedWithin then (if Max(window) > 0 then Some(Max(window)) else None)
    else if Max(window) <= 0 then None
    else Some(Max(window) - MinPositive(window))
  }

  lemma WindowIncreaseFacts(window: seq<int>, publishedWithin: bool)
    requires window != []
    ensures WindowIncrease(window, publishedWithin).Some? <==> Max(window) > 0
    ensures WindowIncrease(window, publishedWithin).Some? ==> 0 <= WindowIncrease(window, publishedWithin).value <= Max(window)
    ensures publishedWithin && Max(window) > 0 ==> WindowIncrease(window, publishedWithin) == Some(Max(window))
  {
  }

  /** The recent views of one video: none when the merged API data has no
      record of it or no publication date; otherwise the increase over its last
      `dayz` view counts, published within them when the publication date is
      not before the `dayz`-th date. */
  function RecentView(api: map<VideoId, ApiVideo>, apiDays: seq<map<VideoId, ApiVideo>>, h: seq<Snapshot>,
                      dates: seq<string>, dayz: nat, v: VideoId): Option<int>
    requires |apiDays| == |h| == |dates| && dayz < |dates|
  {
    if v !in api then None
    else
      var pubDate := Slice(api[v].publishedAt.GetOr(""), 0, 10);
      if pubDate == "" then None
      else WindowIncrease(LastN(ViewHistory(apiDays, h, v), dayz), !Less(pubDate, InvertDate(dates[dayz])))
  }

  /** The loop of `compute_recent_views` over every video. */
  method RecentViews(api: map<VideoId, ApiVideo>, apiDays: seq<map<VideoId, ApiVideo>>, h: seq<Snapshot>,
                     dates: seq<string>, dayz: nat, videos: set<VideoId>) returns (views: map<VideoId, int>)
    requires |apiDays| == |h| == |dates| && dayz < |dates|
    ensures forall v :: v in views <==> v in videos && RecentView(api, apiDays, h, dates, dayz, v).Some?
    ensures forall v :: v in views ==> views[v] == RecentView(api, apiDays, h, dates, dayz, v).value
    ensures forall v :: v in views ==> views[v] >= 0
  {
    views := map[];
    var rest := videos;
    while rest != {}
      invariant rest <= videos
      invariant forall v :: v in views <==> v in videos - rest && RecentView(api, apiDays, h, dates, dayz, v).Some?
      invariant forall v :: v in views ==> views[v] == RecentView(api, apiDays, h, dates, dayz, v).value
      invariant forall v :: v in views ==> views[v] >= 0
      decreases rest
    {
      var v :| v in rest;
      var history := ViewHistory(apiDays, h, v);
      if v in api {
        var pubDate := Slice(api[v].publishedAt.GetOr(""), 0, 10);
        if pubDate != "" {
          var window := LastN(history, dayz);
          var increase := WindowIncrease(window, !Less(pubDate, InvertDate(dates[dayz])));
          WindowIncreaseFacts(window, !Less(pubDate, InvertDate(dates[dayz])));
          if increase.Some? {
            views := views[v := increase.value];
          }
        }
      }
      rest := rest - {v};
    }
  }

  // ---------------------------------------------------------------------------
  // The channel filters.

  /** The channels of `chans` with more than `BigChannel` subscribers, in order. */
  function BigChannels(chans: seq<ChannelName>, subs: map<ChannelName, int>): (r: seq<ChannelName>)
    ensures forall c :: c in r <==> c in chans && Get(subs, c) > BigChannel
    ensures multiset(r) <= multiset(chans)
  {
    if chans == [] then []
    else
      var rest := BigChannels(chans[..|chans| - 1], subs);
      var c := chans[|chans| - 1];
      assert chans == chans[..|chans| - 1] + [c];
      if Get(subs, c) > BigChannel then rest + [c] else rest
  }

  /** A filtered listing of a set still lists each channel once. */
  lemma {:induction false} BigChannelsDistinct(chans: seq<ChannelName>, subs: map<ChannelName, int>)
    requires Distinct(chans)
    ensures Distinct(BigChannels(chans, subs))
  {
    if chans != [] {
      var init := chans[..|chans| - 1];
      var c := chans[|chans| - 1];
      assert Distinct(init);
      BigChannelsDistinct(init, subs);
      assert c !in init;
      assert c !in BigChannels(init, subs);
    }
  }

  /** `getSortedChannels`: the channels of the set (listed in its iteration
      order) with more than 100000 subscribers, most subscribed first. */
  function SortedChannels(chans: seq<ChannelName>, subs: map<ChannelName, int>): seq<ChannelName>
  {
    SortDesc(BigChannels(chans, subs), subs)
  }

  /** The listing holds exactly the big channels, each once (the input is a
      set), most subscribed first, ties in the set's order. */
  lemma SortedChannelsFacts(chans: seq<ChannelName>, subs: map<ChannelName, int>)
    requires Distinct(chans)
    ensures var r := SortedChannels(chans, subs);
      && (forall c :: c in r <==> c in chans && Get(subs, c) > BigChannel)
      && Distinct(r)
      && Descending(r, subs)
      && forall n :: WithWeight(r, subs, n) == WithWeight(BigChannels(chans, subs), subs, n)
  {
    var big := BigChannels(chans, subs);
    SortDescFacts(big, subs);
    BigChannelsDistinct(chans, subs);
    PermutationDistinct(big, SortedChannels(chans, subs));
    forall c ensures c in SortedChannels(chans, subs) <==> c in big {
      assert c in SortedChannels(chans, subs) <==> c in multiset(SortedChannels(chans, subs));
      assert c in big <==> c in multiset(big);
    }
  }

  /** A part of a `snippet` read by `snippetIsInSet`. */
  datatype Snippet = Snippet(channelName: Option<ChannelName>, channelId: ChannelId)

  /** `snippetIsInSet`: the snippet's channel name (the impossible name when it
      has none) or its channel id is among `chans`. */
  function SnippetIsInSet(s: Snippet, chans: set<string>): bool
  {
    s.channelName.GetOr(ImpossibleChannelName) in chans || s.channelId in chans
  }

  /** Unless the set holds the impossible name, a snippet is in it exactly when
      its channel id is, or it has a channel name and that name is. */
  lemma SnippetIsInSetFacts(s: Snippet, chans: set<string>)
    requires ImpossibleChannelName !in chans
    ensures SnippetIsInSet(s, chans) <==> s.channelId in chans || (s.channelName.Some? && s.channelName.value in chans)
  {
  }
}
