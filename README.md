# youtube-snowball, modelled in Dafny

`youtube_snowball.py` maps the YouTube recommendation graph around a base set
of channels. The crawler, `YoutubeChannelScrapper`, starts from the base
channels. For each channel it samples recent uploads and scrapes each sampled
video's watch page for its recommendations. Every recommended video is
resolved to its channel through the YouTube Data API (`videos.list`), and
the resolved channels are counted in a
run-wide tally. It then "snowballs": in round k it ranks every channel seen
so far by tally, takes the k best, and expands each one that is neither in
the do-not-expand set nor already rich in recommendations. At the end it
fetches API data for everything it met and writes a result file listing the
most recommended videos. The two accumulation loops, in
`make_video_to_chan_map` and `get_all_api_data`, send their `videos.list`
batches 50 ids at most; the batch sent while a single video is scraped has
no ceiling.

A second part, `compute_recent_files`, works offline over many daily crawl
snapshots. It:

- picks the newest snapshot dates;
- purges records with an empty title;
- estimates how many views each recommended video received from being
  recommended, by attributing the view growth of a video between two
  consecutive observations to the recommendations that persisted across
  them, and sharing each credit evenly over the dates in between;
- works out, per video, which channels recommended it, the recent views and
  the recent recommending channels.

The model has one Dafny module per concern:

- `Snowball` (`scrapper.dfy`): the crawler as the class
  `ChannelScrapper`. Its fields are the crawler's dictionaries and sets, and
  its methods update them in place. Two ghost fields log what the crawler
  does: `apiCalls` records every `videos.list` batch and `expansions` every
  channel expanded. The API, the watch-page download and the channel and
  playlist lookups are function parameters (`service`, `fetch`,
  `channelApi`, `playlistApi`).
- `Crawl` (`crawl.dfy`): the specification functions the crawler's methods
  are proved against. These cover channel resolution, the tally step, the
  upload sample, channel statistics, the enough-recos list and the round's
  candidates.
- `Collections` (`collections.dfy`): the Python idioms the program relies on.
  These are clamped slicing, `d[k] = v` in order, a counting dictionary that
  keeps insertion order (`Tally`, for `defaultdict(int)`), and the stable
  `sorted(..., key=d.get, reverse=True)`.
- `Records` (`records.dfy`): the records kept in the dictionaries, reduced
  to the fields that are read.
- `TextParse` (`text.dfy`): `clean_count` and the watch page's ISO 8601
  duration reader (the `PT#H#M#S` duration with designators of section
  4.4.3.2 of ISO 8601:2004, every component optional).
- `Dates` (`dates.dfy`): `invert_date`, `revert_date`, Python string order
  and the selection of snapshot dates.
- `Estimator` (`estimator.dfy`): the temporal recommendation estimator.
- `Recent` (`recent.dfy`): the purge and the per-video aggregations of
  `compute_recent_files`.
- `Reports` (`reports.dfy`): the counting behind `write_result_file` and
  `describe_channels`.

Three behaviours of the program are easy to misread:

- **Sampling when the target equals the cached count.** The second pass
  tests the length after appending, so when `total_video_needed` is no more
  than the number of cached uploads it still adds the first upload, if that
  upload is not cached (youtube_snowball.py:536-546). This happens when the
  cached recommendations meet the demand, and also when they fall short by
  fewer than 15: with no cached upload, `required_recos = 10` and no
  recommendation, `total_video_needed` is `0 + int(10/15) = 0`, and the tail
  is the first upload alone.
  `Crawl.UploadSample` and `Crawl.SampleTailLength` state this.
- **What the snowball loop counts.** The loop counts rounds: round k attempts
  the k best-ranked channels, and the loop runs exactly
  `max(0, max_channels - len(base))` rounds (youtube_snowball.py:846-856).
- **Key spaces of the enough-recos list.** The list holds channel display
  names, but the snowball loop tests channel ids against it. The model keeps
  the two key spaces as the code has them.

## Model

| member | source | states |
|---|---|---|
| Snowball.ChannelScrapper.constructor | youtube_snowball.py:188-195 | the dictionaries are the loaded ones, the tally and the do-not-expand set start empty, and no API call or expansion is logged |
| Snowball.ChannelScrapper.Open | youtube_snowball.py:173-204 | `__init__` ends in the state `make_video_to_chan_map` leaves (`Mapped`), with the channel statistics and scraped videos as loaded and an empty tally and do-not-expand set |
| Snowball.ChannelScrapper.GetVideosFromApi | youtube_snowball.py:476-500 | one call is logged with its batch, and each answered item's record and channel are written into `_api_videos` and `_video_to_chan_map` in answer order |
| Collections.Upsert | youtube_snowball.py:493-496 | successive `d[k] = v` assignments, in order, later ones winning |
| Snowball.StoreAnswers | youtube_snowball.py:493-500 | the loop over the answered items leaves both maps updated with every item's pair, later items overwriting earlier ones |
| Records.Stored | youtube_snowball.py:497-500 | definitional: the record conversion itself, whose two ensures restate that the stored record keeps the item's channel id and holds the empty title when the item had no channel title |
| Snowball.ChannelScrapper.SyncVideoToChan | youtube_snowball.py:258-259 | afterwards every video with an API record maps to that record's channel, and the other entries of `_video_to_chan_map` are unchanged |
| Snowball.SyncChannels | youtube_snowball.py:733-734 | the loop over `_api_videos`'s keys yields the old map overridden by every record's channel, whatever order the keys are visited in |
| Snowball.ApiChannels | youtube_snowball.py:258-259 | the channel map built from API records has exactly the records' keys |
| Snowball.ChannelScrapper.Queue | youtube_snowball.py:218-230 | a known video is skipped; any other video is appended to the open batch, and a full batch of 50 is sent first; afterwards the video is queued or known, and no map loses a key |
| Snowball.ChannelScrapper.Send | youtube_snowball.py:221-224 | sending a batch logs it as the next call, and the maps then hold the answers to every call so far |
| Snowball.QueuedSend | youtube_snowball.py:221-224 | sending a full batch keeps the bookkeeping: the full calls, then the open batch, spell the queue |
| Snowball.QueuedPush | youtube_snowball.py:226-229 | appending an id absent from the starting maps to a batch below 50 keeps the bookkeeping |
| Snowball.QueuedClose | youtube_snowball.py:254-255 | closing the open batch when it is not empty yields calls of 1 to 50 ids, all but the last exactly 50, which spell the queue |
| Snowball.ChannelScrapper.QueueRow | youtube_snowball.py:233-251 | after the loop over one video's recommendations, each of them is queued or known, and the bookkeeping holds |
| Snowball.ChannelScrapper.QueueAll | youtube_snowball.py:216-251 | after the loop over all scraped videos, every scraped video and every recommendation is queued or known |
| Snowball.ChannelScrapper.Flush | youtube_snowball.py:253-255 | the last partial batch is sent when it is not empty; the calls then cover the queue exactly and each holds 1 to 50 ids |
| Snowball.ChannelScrapper.AccumulateAndFetch | youtube_snowball.py:216-255 | the calls made hold 1 to 50 ids, all but the last exactly 50; together they cover exactly the queued ids, none of which was known at the start; every scraped video and recommendation is queued or was already known; the maps hold the answers |
| Snowball.ChannelScrapper.MakeVideoToChanMap | youtube_snowball.py:206-260 | batches skip videos with an API record or a channel; every scraped video and recommendation ends with a channel or was sent; the channel map then follows the API records |
| Snowball.ChannelScrapper.GetAllApiData | youtube_snowball.py:690-735 | batches skip only videos with an API record; every scraped video and recommendation ends with a record or was sent in a call of at most 50 ids |
| Crawl.ChannelOf | youtube_snowball.py:327-341 | the API record's channel first, then the channel map's, and none exactly when neither knows the video |
| Snowball.ChannelScrapper.GetRecommendations | youtube_snowball.py:343-353 | a scraped video returns its stored recommendations and leaves everything unchanged; otherwise the fetched record is inserted under the new key and its recommendations returned |
| Crawl.Scraped | youtube_snowball.py:343-353 | `_scrapped_videos` after `get_recommendations(v)`: unchanged for a video already scraped, otherwise extended with the fetched record |
| Crawl.ScrapedMemo | youtube_snowball.py:351-353 | a request for a scraped video changes nothing, no stored record is overwritten, exactly the requested key is added, and a new record is the fetched one |
| Crawl.Missing | youtube_snowball.py:567-571 | the batch of `scrap_the_video` holds exactly the recommendations neither map knows |
| Snowball.ChannelScrapper.UnknownRecos | youtube_snowball.py:567-571 | the loop builds exactly `Missing` of the recommendations |
| Snowball.ChannelScrapper.FetchMissing | youtube_snowball.py:572-573 | no call when no recommendation is missing, else exactly one call with the missing ones and their answers stored |
| Snowball.ChannelScrapper.CountResolved | youtube_snowball.py:575-581 | the counts become the old ones plus one for each recommendation's resolved channel, in order |
| Snowball.ChannelScrapper.ScrapTheVideo | youtube_snowball.py:554-581 | the video is scraped or recalled as in `get_recommendations`; its missing recommendations are sent in one call; each recommendation that resolves adds one to its channel |
| Crawl.Resolved | youtube_snowball.py:575-581 | the resolved channels are at most as many as the recommendations |
| Crawl.ResolvedSnoc | youtube_snowball.py:577-581 | one more recommendation adds its channel when it resolves and nothing otherwise |
| Crawl.CountStep | youtube_snowball.py:581 | counting one more recommendation adds one to its channel, if it resolves, and to no other key |
| Crawl.ResolvedCount | youtube_snowball.py:575-581 | a channel occurs among the resolved channels once per recommendation that resolves to it |
| Crawl.ResolvedMembers | youtube_snowball.py:575-581 | a channel is counted exactly when some recommendation resolves to it |
| Crawl.TallyResolved | youtube_snowball.py:575-581 | a channel's count grows by exactly the number of recommendations resolving to it, and it becomes a key exactly when it was one or some recommendation resolves to it |
| Collections.Tally.Add | youtube_snowball.py:581 | `d[k] += n` raises `k` by `n`, leaves every other count alone and appends a new key at the end of the key order |
| Collections.CountEach | youtube_snowball.py:743-746 | the counting loop is `AddEach` |
| Collections.AddEachCount | youtube_snowball.py:743-746 | each key's count grows by exactly its number of occurrences |
| Collections.AddEachKeys | youtube_snowball.py:743-746 | the keys afterwards are the old keys and the counted elements |
| Collections.AddEachAppend | youtube_snowball.py:743-746 | counting one sequence and then another is counting their concatenation |
| Collections.AddEachNonNegative | youtube_snowball.py:743-746 | counts started from empty are never negative |
| Collections.AddEach | youtube_snowball.py:581 | counting a sequence of keys one by one, each `d[k] = d.get(k, 0) + 1` in order |
| Crawl.UploadSample | youtube_snowball.py:522-546 | `videos_to_get`: the cached uploads, then the `SampleTail` of the second pass |
| Crawl.Cached | youtube_snowball.py:526-529 | the first pass keeps exactly the uploads already scraped, in upload order |
| Snowball.ChannelScrapper.CachedUploads | youtube_snowball.py:526-529 | the first-pass loop computes `Cached` |
| Snowball.ChannelScrapper.CountStoredRecos | youtube_snowball.py:532-534 | the loop sums the stored recommendations of the cached uploads |
| Crawl.RecoTotalSnoc | youtube_snowball.py:533-534 | one more video adds its number of stored recommendations |
| Crawl.RecoTotalFrame | youtube_snowball.py:533-534 | the total reads only the records of the given videos |
| Crawl.SampleTarget | youtube_snowball.py:532-538 | `total_video_needed` for a channel's uploads: `Target` of the cached uploads and their stored recommendations |
| Crawl.Target | youtube_snowball.py:536-538 | the target is never below the cached count, and is exactly it when the cached recommendations meet the demand (with 15 recommendations per video, integer division) |
| Crawl.FreshUploads | youtube_snowball.py:541-544 | the uploads the second pass would append if it never broke off: each upload not yet scraped, first occurrence only |
| Crawl.SampleTail | youtube_snowball.py:540-546 | what the second pass appends: when the target is above the cached count, the first `total_video_needed - len(cached)` fresh uploads; when it equals the cached count (demand met, or short by fewer than 15 recommendations), the first upload when it is not cached, since the break comes after the append |
| Crawl.FreshUploadsFacts | youtube_snowball.py:541-544 | the second pass's candidates are each upload not yet scraped, listed once |
| Crawl.FreshUploadsPrefix | youtube_snowball.py:541-546 | the fresh uploads of a prefix of the uploads are a prefix of all fresh uploads |
| Crawl.FreshUploadsTake | youtube_snowball.py:541-546 | stopping where the k-th fresh upload is found yields the first k fresh uploads |
| Crawl.SampleTailMembers | youtube_snowball.py:540-546 | what the second pass appends after the cached uploads are distinct uploads not yet scraped |
| Crawl.SampleTailLength | youtube_snowball.py:536-546 | when the target is above the cached count, the tail has the difference in uploads, or all fresh ones if fewer; when the target equals the cached count (demand met, or short by fewer than 15 recommendations), it is the first upload alone exactly when that upload is uncached, and empty otherwise |
| Crawl.SampleStop | youtube_snowball.py:545-546 | breaking as soon as the list reaches the target leaves the fresh uploads met so far |
| Crawl.SampleEnd | youtube_snowball.py:541-546 | when the target is never reached, every fresh upload is appended |
| Snowball.ExtendStep | youtube_snowball.py:541-544 | an upload is appended exactly when it is not already in the list |
| Snowball.AppendUpload | youtube_snowball.py:541-544 | one iteration of the second pass extends the tail as `FreshUploads` does |
| Snowball.ExtendSample | youtube_snowball.py:540-546 | the second pass yields the cached uploads followed by `SampleTail` |
| Snowball.ChannelScrapper.SelectUploads | youtube_snowball.py:522-546 | `videos_to_get` is `UploadSample`: every cached upload, then fresh ones up to the target |
| Snowball.ChannelScrapper.ScrapAndCount | youtube_snowball.py:549-550 | one more `scrap_the_video` of the sample: no stored record changes, the video is scraped, its missing recommendations are sent in one call, and the counts grow by exactly the channels its recommendations resolve to once that call is answered |
| Crawl.GrownSnoc | youtube_snowball.py:549-550 | scraping one more video extends the record of what was added, and no earlier record changes |
| Snowball.TracedSnoc | youtube_snowball.py:549-550 | scraping one more video, with every stored record kept, extends the per-video trace by that video's API call and resolved channels |
| Snowball.ChannelScrapper.GetChannelToCountFromUploads | youtube_snowball.py:516-552 | the sampled videos are `UploadSample` of the scraped videos beforehand, exactly they are scraped (the new ones from `fetch`), and they are visited in sample order; the API side goes from its old state to its new one through one `scrap_the_video` call per video (`Traced`); the counts are exactly the channels the sample's recommendations resolved to, video after video |
| Crawl.StatsFor | youtube_snowball.py:598-619 | the statistics entry `scrap_the_channel` uses: the stored one when reuse is on, else one built from `channels.list` and the uploads playlist, none when the channel lookup answers nothing |
| Crawl.StatsStored | youtube_snowball.py:598-619 | `_channel_stats` afterwards: a newly built entry stored under the channel, the map unchanged otherwise |
| Crawl.StatsForFacts | youtube_snowball.py:598-619 | a stored entry is reused as it is; otherwise the entry is built from the first channel item and its uploads playlist and stored under the channel, none without an item; no other channel's entry changes |
| Snowball.ChannelScrapper.FetchStats | youtube_snowball.py:598-619 | the entry and the new `_channel_stats` are `StatsFor` and `StatsStored` |
| Crawl.PassesFeatureFilter | youtube_snowball.py:623-632 | the featured-channel filter: no channel to look for, or the channel itself in the list, or one of its featured channels in the list |
| Snowball.ChannelScrapper.FeatureFilter | youtube_snowball.py:623-632 | the loop's verdict is `PassesFeatureFilter`: with no channel to look for, any channel passes; otherwise the channel itself or one of its featured channels must be in the list |
| Collections.Merge | youtube_snowball.py:637-638 | the final loop of `scrap_the_channel`: every count of the channel's tally added to the total, keys in first-counted order |
| Collections.MergeCount | youtube_snowball.py:637-638 | merging adds exactly the other tally's count to every key |
| Collections.AddCountsCount | youtube_snowball.py:637-638 | adding the counts of distinct keys raises each listed key by its count and no other |
| Snowball.ChannelScrapper.MergeInto | youtube_snowball.py:637-638 | the total becomes the merge of the old total and the channel's counts |
| Crawl.MergeGrows | youtube_snowball.py:637-638 | each channel's total grows by its number of occurrences among the counted channels, so never goes down |
| Crawl.MergeNeverLowers | youtube_snowball.py:637-638 | no channel's total goes down when a channel's counts are merged in |
| Snowball.MergedIntro | youtube_snowball.py:635-638 | a sample, its traced scraping and the merge of exactly its resolved channels make a `Merged` step, in which no total goes down |
| Snowball.ChannelScrapper.SampleAndMerge | youtube_snowball.py:635-638 | the total is the old total merged with the counts of the channels the sample's recommendations resolved to, the API side follows the trace of the sample, and no total goes down |
| Snowball.ChannelScrapper.ExpandChannel | youtube_snowball.py:597-638 | the channel's statistics are stored; expansion proceeds exactly when they are found and the filter passes; then the sample's counts are merged into the total; otherwise nothing else changes |
| Snowball.ChannelScrapper.ScrapTheChannel | youtube_snowball.py:583-638 | a channel in the do-not-expand set changes nothing; any other channel joins it on every path and is logged as expanded once; expansion proceeds exactly when statistics exist and the filter passes; the total then grows by exactly the channels the sample's recommendations resolved to |
| Crawl.ChannelRecoTally | youtube_snowball.py:640-644 | `channel_to_recos`: the recommendation list lengths of the scraped videos summed per channel display name, in scrape order |
| Crawl.ChannelRecoTallyCount | youtube_snowball.py:642-644 | each channel name's count is the sum of the recommendation list lengths of its scraped videos |
| Crawl.ChannelRecoTallyKeys | youtube_snowball.py:642-644 | a name is a key exactly when one of the scraped videos carries it |
| Crawl.EnoughOf | youtube_snowball.py:645 | the list holds exactly the names whose count exceeds 50 |
| Snowball.ChannelScrapper.GetChannelsWithEnoughRecos | youtube_snowball.py:640-645 | the loops compute the per-name tally and exactly the names above 50, in key order |
| Collections.SortDesc | youtube_snowball.py:850 | `sorted(keys, key=d.get, reverse=True)`: insertion sort by descending weight where an element goes after every element of equal weight |
| Collections.SortDescFacts | youtube_snowball.py:850 | the ranking is a permutation of the keys in non-increasing weight, and ties keep their input order |
| Collections.InsertPerm | youtube_snowball.py:850 | inserting adds exactly the element |
| Collections.InsertSorted | youtube_snowball.py:850 | inserting into a non-increasing list keeps it non-increasing |
| Collections.InsertStable | youtube_snowball.py:850 | inserting places the element after every element of equal weight |
| Crawl.TopRanking | youtube_snowball.py:850-854 | the k taken are the heaviest: no channel outside them has a larger tally, and the ranking lists every channel once |
| Collections.Take | youtube_snowball.py:854 | the slice `s[0:k]` is the first k elements, or all of them when k exceeds the length |
| Crawl.Candidates | youtube_snowball.py:854-856 | the channels attempted are exactly those of the round's top that are in neither the enough-recos list nor the do-not-expand set |
| Snowball.ChannelScrapper.Attempt | youtube_snowball.py:855-856 | a channel is expanded exactly when it is in neither the enough-recos list nor the do-not-expand set, and no total goes down |
| Snowball.ChannelScrapper.AttemptAll | youtube_snowball.py:854-856 | over a ranking without repeats, exactly the `Candidates` are expanded, in ranking order, and each joins the do-not-expand set |
| Snowball.ChannelScrapper.SnowballRound | youtube_snowball.py:846-856 | round k takes the k channels ranked highest by the total and expands exactly its `Candidates`, judged on the state at the round's start |
| Snowball.FreshAppend | youtube_snowball.py:846-856 | expansions appended from outside the current do-not-expand set keep every later expansion outside the initial one |
| Snowball.ChannelScrapper.ScrapBaseChannel | youtube_snowball.py:827-828 | a base channel joins the do-not-expand set, earlier expansions stay, and no total goes down |
| Snowball.ChannelScrapper.ScrapBase | youtube_snowball.py:827-831 | every base channel joins the do-not-expand set |
| Snowball.ChannelScrapper.AddBlacklist | youtube_snowball.py:838-841 | every blacklisted channel joins the do-not-expand set |
| Snowball.ChannelScrapper.Snowball | youtube_snowball.py:845-877 | the loop runs exactly `max(0, max_channels - len(base))` rounds; no channel of the do-not-expand set at its start is expanded, earlier expansions are kept, and no total goes down |
| Snowball.ChannelScrapper.Crawl | youtube_snowball.py:820-877 | after the base, no blacklisted or base channel is ever expanded, every one of them is in the do-not-expand set, the round count is exact and no total goes down |
| Snowball.ChannelScrapper.ScrapFromBase | youtube_snowball.py:810-882 | the crawl's guarantees, then the rows of the result file for the final state, with non-increasing counts |
| Snowball.ChannelScrapper.Report | youtube_snowball.py:880-882 | after the API data are fetched, the rows are those of the final state, with non-increasing counts |
| Snowball.ChannelScrapper.CountRecommendations | youtube_snowball.py:743-746 | the loops count how often each video is recommended by the scraped videos |
| Reports.RecoCounts | youtube_snowball.py:743-746 | `counts`: every recommendation of every scraped video counted, in scrape order |
| Reports.RecoCountsCount | youtube_snowball.py:743-746 | each video's count is its number of occurrences among the recommendations, and it is a key exactly when it occurs |
| Reports.RowFor | youtube_snowball.py:754-786 | a row exists unless neither the API nor the scrape knows the video; it carries the video and its count |
| Reports.Rows | youtube_snowball.py:751-786 | there are at most as many rows as ranked videos |
| Reports.RowsFacts | youtube_snowball.py:751-786 | every row is for a ranked video recommended more than once that the API or the scrape knows, and carries its count |
| Reports.RowsOrdered | youtube_snowball.py:751 | on a non-increasing ranking the rows' counts never increase |
| Reports.RowsBound | youtube_snowball.py:754 | when every ranked video has at least m recommendations, so has every row |
| Reports.RowsSplit | youtube_snowball.py:748-786 | rows (`nb_ok_vids`) and videos not found (`nb_not_ok_vids`) together number exactly the videos recommended more than once |
| Snowball.ChannelScrapper.WriteResultFile | youtube_snowball.py:739-791 | the rows are those of the stable descending ranking by count, rows and not-found videos together number the videos recommended more than once, and counts never increase down the file |
| Reports.ChannelsOrUnknown | youtube_snowball.py:800 | each recommendation maps to its channel, or to `"unknown"` |
| Snowball.CountChannelsOf | youtube_snowball.py:799-800 | the inner loop adds one for each recommendation's channel or `"unknown"` |
| Snowball.CountDescribed | youtube_snowball.py:798-800 | the outer loop counts the channels of all recommendations in order |
| Reports.DescribedCount | youtube_snowball.py:797-800 | each channel is counted once per recommendation mapped to it |
| Snowball.ChannelScrapper.DescribeChannels | youtube_snowball.py:793-808 | the per-channel counts and the first 500 of their stable descending ranking |
| TextParse.AsciiOnly | youtube_snowball.py:322 | the result holds only ASCII characters |
| TextParse.AsciiOnlyAppend | youtube_snowball.py:322 | dropping non-ASCII characters distributes over concatenation |
| TextParse.SkipToCount | youtube_snowball.py:324-325 | the search skips exactly the characters outside `[\d,]` before the first match |
| TextParse.CountRun | youtube_snowball.py:324-325 | the match is the longest prefix of digits and commas |
| TextParse.RemoveCommas | youtube_snowball.py:325 | the result holds no comma, and only digits when the input was digits and commas |
| TextParse.CleanCount | youtube_snowball.py:314-325 | the failure `IndexError` happens exactly when the ASCII text holds no digit or comma |
| TextParse.Grouped | youtube_snowball.py:314-325 | a displayed count starts with a digit and holds only ASCII digits and commas |
| TextParse.GroupedValue | youtube_snowball.py:325 | removing the commas of a displayed count leaves the digits of its value |
| TextParse.CleanCountOfDisplayed | youtube_snowball.py:314-325 | a count displayed with thousands separators, amid text without digits or commas, is read back exactly |
| TextParse.Digits | youtube_snowball.py:401 | the decimal rendering of n is a non-empty run of ASCII digits whose value is n |
| TextParse.DecimalValueAppend | youtube_snowball.py:401 | the value of concatenated digit strings shifts the first by the length of the second |
| TextParse.PyInt | youtube_snowball.py:401 | `int` of a non-empty digit string is its value, and `int('')` fails |
| TextParse.ReplaceAll | youtube_snowball.py:397 | `str.replace`: every non-overlapping occurrence of the pattern, left to right, replaced |
| TextParse.ReplaceAllAbsent | youtube_snowball.py:397 | `replace` leaves a text without the pattern's first character unchanged |
| TextParse.BeforeChar | youtube_snowball.py:400 | `split(c)[0]` holds no `c`, and is the whole text when there is none |
| TextParse.SplitAtFirst | youtube_snowball.py:400-402 | splitting at the first `c` gives back the parts on either side |
| TextParse.DurationPart | youtube_snowball.py:399-409 | one `if c in dur` block: 0 and the text unchanged when `c` is absent, else `int` of the text before the first `c` times the unit and the text between the first and second `c` (`contents[1]`) |
| TextParse.ReadDesignators | youtube_snowball.py:398-409 | the hours, minutes and seconds blocks in turn, their values summed, the first `int` failure returned |
| TextParse.ParseDuration | youtube_snowball.py:397-409 | the duration of a `content` attribute: `PT` removed, then the three blocks |
| TextParse.DurationPartOfComponent | youtube_snowball.py:399-409 | one `if c in dur` step reads a component's value times its unit and leaves the rest |
| TextParse.StripPT | youtube_snowball.py:397 | removing `PT` from `PT` followed by a text without `P` leaves that text |
| TextParse.IsoStrip | youtube_snowball.py:397 | removing `PT` from an ISO duration leaves its components |
| TextParse.HoursStep | youtube_snowball.py:399-402 | the hours step reads the hours and leaves the minutes and seconds |
| TextParse.MinutesStep | youtube_snowball.py:403-406 | the minutes step reads the minutes and leaves the seconds |
| TextParse.SecondsStep | youtube_snowball.py:407-409 | the seconds step reads the seconds and leaves nothing |
| TextParse.ReadComponents | youtube_snowball.py:398-409 | the three steps read `3600 h + 60 m + s` from the components |
| TextParse.ParseIsoDuration | youtube_snowball.py:394-410 | every `PT[h H][m M][s S]` duration, with any component left out, is read as its number of seconds |
| Dates.Slice | youtube_snowball.py:902 | `s[i:j]` clamps both bounds to the text |
| Dates.InvertDate | youtube_snowball.py:901-902 | a ten-character date becomes one in `yyyy-mm-dd` form |
| Dates.RevertDate | youtube_snowball.py:905-906 | a ten-character date becomes one in `dd-mm-yyyy` form |
| Dates.RevertInverted | youtube_snowball.py:901-906 | reverting the inverted date gives it back exactly when it is in `dd-mm-yyyy` form |
| Dates.InvertReverted | youtube_snowball.py:901-906 | inverting the reverted date gives it back exactly when it is in `yyyy-mm-dd` form |
| Dates.Less | youtube_snowball.py:915 | Python's `<` on strings: lexicographic by code point, a proper prefix first |
| Dates.LessIrreflexive | youtube_snowball.py:915 | no string is below itself |
| Dates.LessTransitive | youtube_snowball.py:915 | string order is transitive |
| Dates.LessTotal | youtube_snowball.py:915 | two different strings are ordered one way or the other |
| Dates.LessAsymmetric | youtube_snowball.py:915 | no two strings are each below the other |
| Dates.InsertDesc | youtube_snowball.py:915 | inserting a date into a decreasing list of distinct dates, dropping a repeat |
| Dates.InsertDescFacts | youtube_snowball.py:915 | inserting into a decreasing listing lists the old elements and the new one, decreasing |
| Dates.SortedDescUnique | youtube_snowball.py:915 | a set has only one decreasing listing |
| Dates.SortedDescending | youtube_snowball.py:914-915 | `sorted(set, reverse=True)` lists the set in decreasing string order |
| Dates.SelectDates | youtube_snowball.py:909-915 | the dates are the first `max_dates` of the folder dates sorted newest first in `yyyy-mm-dd` form and reverted |
| Dates.SelectedNewestFirst | youtube_snowball.py:909-915 | when every folder date is in `dd-mm-yyyy` form, the selected dates are distinct and newest first, each in that form and inverting back to its sort key |
| Recent.WithTitles | youtube_snowball.py:979-982 | the purged snapshot holds exactly the records with a title, unchanged |
| Recent.PurgeTitles | youtube_snowball.py:980-982 | the deletion loop yields `WithTitles` of the snapshot |
| Recent.PurgeHistory | youtube_snowball.py:979-982 | every date is purged, and only that date |
| Recent.PurgeIdempotent | youtube_snowball.py:979-982 | purging twice is purging once |
| Estimator.NextObs | youtube_snowball.py:1002-1011 | the inner loop stops at the next snapshot holding the video, or at the end, skipping only snapshots without it |
| Estimator.ObservedFacts | youtube_snowball.py:995-1011 | the observations found are increasing indices of snapshots holding the video |
| Estimator.ObservedMembers | youtube_snowball.py:995-1011 | every snapshot holding the video is observed |
| Estimator.SkipUnobserved | youtube_snowball.py:999-1001 | the scan skips a snapshot without the video |
| Estimator.ScanNextPair | youtube_snowball.py:1002-1035 | from an observation with a later one, the scan credits that pair and goes on from the second |
| Estimator.ChainNextPair | youtube_snowball.py:1002-1035 | the reference chain credits the same pair and goes on likewise |
| Estimator.LastObservation | youtube_snowball.py:1005-1007 | from an observation without a later one, nothing is credited |
| Estimator.EstimateIsChain | youtube_snowball.py:995-1035 | the scan credits exactly every pair of consecutive observations, oldest first |
| Estimator.SingleObservation | youtube_snowball.py:997-1007 | a video observed at most once credits nothing |
| Estimator.BumpAt | youtube_snowball.py:1027 | `d[k] += n` on a `defaultdict(int)` raises `k` by `n` and nothing else |
| Estimator.ShareOut | youtube_snowball.py:1029-1032 | the `delta` loop on `video_to_recos_date[reco]`: `n` snapshots from `lo` each raised by the share |
| Estimator.ShareOutAt | youtube_snowball.py:1029-1032 | each of the snapshots `first .. second` gains the share, and no other |
| Estimator.ShareDates | youtube_snowball.py:1029-1032 | the `delta` loop adds the share to each snapshot of the interval |
| Estimator.CreditRecosAt | youtube_snowball.py:1024-1032 | a recommendation gains the increase once per occurrence in the first list, and only when it is still in the second; each snapshot of the interval gains `inc / (second - first + 1)` per occurrence |
| Estimator.PairAttribution | youtube_snowball.py:1021-1032 | a pair credits nothing unless the views grew, and then as `CreditRecosAt` with the growth |
| Estimator.CreditRecos | youtube_snowball.py:1024-1032 | the `for reco in first_video['recommendations']` loop: each occurrence still recommended at the second date credited |
| Estimator.CreditPair | youtube_snowball.py:1018-1032 | one pair of observations: the view increase, and when it is positive the crediting of the first date's recommendations |
| Estimator.CreditInterval | youtube_snowball.py:1018-1032 | the crediting loop of one interval is `CreditPair` |
| Estimator.BumpSum | youtube_snowball.py:1027 | raising one snapshot raises their sum by the same amount |
| Estimator.ShareOutSum | youtube_snowball.py:1029-1032 | sharing over `count` snapshots adds `count` shares to their sum |
| Estimator.SplitBound | youtube_snowball.py:1028-1032 | the even split never hands out more than the increase |
| Estimator.CreditRecoSoundAt | youtube_snowball.py:1027-1032 | crediting a recommendation keeps its estimates non-negative and its shares within its total |
| Estimator.CreditRecoSound | youtube_snowball.py:1027-1032 | crediting keeps every video's estimates sound |
| Estimator.CreditRecosSound | youtube_snowball.py:1024-1032 | crediting a whole list keeps every estimate sound |
| Estimator.EstimateVideoSound | youtube_snowball.py:995-1035 | scanning one video keeps every estimate sound |
| Estimator.EstimateEachSound | youtube_snowball.py:995-1035 | all estimates are non-negative, and the date shares of each video sum to at most its total |
| Estimator.EstimateVideo | youtube_snowball.py:996-1035 | the scan of one video from `first_index`: unobserved snapshots skipped, each pair of consecutive observations credited, stop when no later one exists |
| Estimator.EstimateEach | youtube_snowball.py:995-1035 | the scans of the videos one after the other, in the given order |
| Estimator.ScanVideo | youtube_snowball.py:996-1035 | the two nested `while` loops for one video compute `EstimateVideo` |
| Estimator.EstimateAll | youtube_snowball.py:988-1035 | over the scraped videos in some order, each once, the estimates are `EstimateEach` and sound |
| Recent.AddRecommender | youtube_snowball.py:1050-1054 | each recommendation gains the recommending channel, and no other key changes |
| Recent.RecommendersStep | youtube_snowball.py:1048-1054 | one more video adds its channel to the recommenders of each of its recommendations |
| Recent.DayRecommendersMap | youtube_snowball.py:1048-1054 | a date's map sends each recommended video to the channels of the day's videos recommending it |
| Recent.AddDay | youtube_snowball.py:1051 | adding a date's map unions the recommender sets key by key |
| Recent.Recommenders | youtube_snowball.py:1047-1054 | `video_date_to_chans` per date, and `video_to_chans` as the union over all dates, with a key exactly when that union is not empty |
| Recent.UnionIsRecommenders | youtube_snowball.py:1047-1054 | a channel recommends a video over the dates exactly when one of its videos recommends it on one of them |
| Recent.MaxChans | youtube_snowball.py:1065-1068 | `video_to_max_chans[v]`: the largest number of recommending channels over the dates, 0 when none |
| Recent.MaxChansFacts | youtube_snowball.py:1065-1068 | the maximum is reached on some date (or is 0), and no date exceeds it |
| Recent.MaxChansWithinUnion | youtube_snowball.py:1065-1068 | no date has more recommending channels than all dates together |
| Recent.MaxRecommenders | youtube_snowball.py:1065-1068 | `video_to_max_chans` holds the maximum for every recommended video |
| Recent.RecentRecos | youtube_snowball.py:1137-1145 | every video's count is the number of channels recommending it on the newest `dayz` dates |
| Recent.RecentRecosMonotone | youtube_snowball.py:1137-1145 | looking at more dates never lowers that count |
| Recent.ChannelsOfFacts | youtube_snowball.py:1151-1157 | the sentinel is never added, and every other id and name is |
| Recent.AddScrappedChannels | youtube_snowball.py:1151-1157 | the loop over a date's videos adds their channel ids and names other than the sentinel |
| Recent.ScrappedChannels | youtube_snowball.py:1147-1158 | the result is the channels scraped on the newest `dayz` dates |
| Recent.SentinelNotScrapped | youtube_snowball.py:1154-1157 | `'UNKNONW CHANNEL'` is never reported |
| Recent.ScrappedIncluded | youtube_snowball.py:1150-1157 | every id and name other than the sentinel of a video scraped on those dates is reported |
| Recent.ScrappedMonotone | youtube_snowball.py:1150 | more dates give more channels |
| Recent.ViewHistory | youtube_snowball.py:1165 | the history has one entry per date, oldest first, each that date's view count |
| Recent.DayViews | youtube_snowball.py:1165 | one date's entry of `view_history`: the API's `viewCount` of that date (-1 if it has none), else the scraped views, else -1 |
| Recent.LastN | youtube_snowball.py:1176 | `s[-dayz:]` is the suffix of `dayz` entries, or the whole history when `dayz` is 0 or not below its length |
| Recent.LastNSuffix | youtube_snowball.py:1176 | the window `view_history[-dayz:]` is a suffix of the history |
| Recent.Max | youtube_snowball.py:1176 | the maximum is an entry and no entry exceeds it |
| Recent.MinPositive | youtube_snowball.py:1184 | the smallest positive entry is positive and no positive entry is below it |
| Recent.WindowIncrease | youtube_snowball.py:1174-1185 | the view increase over the window: the maximum for a video published within it, else maximum minus smallest positive entry, none when the maximum is not positive |
| Recent.WindowIncreaseFacts | youtube_snowball.py:1174-1185 | a video is reported exactly when its largest count is positive; the increase is then between 0 and that count, and equals it for a video published within the window |
| Recent.RecentView | youtube_snowball.py:1163-1185 | one video of `compute_recent_views`: none without an API record or publication date, else `WindowIncrease` of the window, published within it when the publication date is not before `dates[dayz]` |
| Recent.RecentViews | youtube_snowball.py:1160-1188 | exactly the videos with a `RecentView` are reported, with that non-negative value |
| Recent.BigChannels | youtube_snowball.py:1086 | the filter keeps exactly the channels with more than 100000 subscribers |
| Recent.BigChannelsDistinct | youtube_snowball.py:1086 | filtering a listing of a set lists each channel once |
| Recent.SortedChannels | youtube_snowball.py:1080-1087 | `getSortedChannels`: the channels above 100000 subscribers, sorted by subscribers, descending |
| Recent.SortedChannelsFacts | youtube_snowball.py:1080-1087 | the result holds exactly the big channels, once each, most subscribed first, ties in the set's order |
| Recent.SnippetIsInSet | youtube_snowball.py:1192-1196 | `snippetIsInSet`: the channel name (the impossible name when absent) or the channel id is in the set |
| Recent.SnippetIsInSetFacts | youtube_snowball.py:1192-1196 | unless the set holds the impossible name, a snippet is in it exactly when its channel id is, or its channel name is |

## Left out

- The YouTube API client (`YouTubeApiClient`), its retries and sleeps. Its answers are function parameters.
- The watch-page download and the HTML parsing of `get_recommendations`. The whole scraped record is a `fetch` parameter, and only the count and duration parsers are modelled.
- All file input and output: loading, saving, the checkpoint saves every 100 videos and every 1000 lookups, and the blacklist file. The blacklist's lines are a parameter.
- `print` output, `os.mkdir` and `os.listdir` (the folder names are a parameter), and `time.strftime` (the `scrapDate` fields are not modelled).
- The channel-name maps `_channel_name_to_id` and `_channel_id_to_name`: they are written but never read by the modelled code.
- `printGeneralStats`, `add_channels_from_searches`, `make_video_history`, the xlsx and evolution files and `main`: these are reporting and entry points outside the crawl and the estimator.
- Values computed in `compute_recent_files` but never read by the modelled parts: `total_recos`, `chans_title_to_chan_to_recos`, `video_to_chans_length`, `original_channels_names` and the `missing` counter.
- The likes, dislikes and comment counts are read but play no part in what is modelled.
- Crawl.ChannelOf: a video neither map knows is treated as unresolved and skipped. In the program, the fallback of `getChannelForVideo` names an undefined variable and would raise `NameError`, which `scrap_the_video` does not catch.
- Snowball.ChannelScrapper.ScrapTheVideo: the single batch of `scrap_the_video` has no 50-id ceiling in the program, so none is claimed for it.
- The batching loops: batches may repeat an id, because membership is checked against the data fetched so far, so no uniqueness is claimed.
- Estimator.ShareOutAt: `int(view_inc / nb)` is float division then truncation. Both operands are positive there, so it is modelled as natural-number division.
- Estimator.EstimateAll: the per-date shares are keyed by chronological index, not by date string.
- Estimator.EstimateAll: the scraped videos are a `set`, visited in an order the program does not fix. The model proves its result for whatever order the loop takes.
- Recent.RecentViews: the merged `api_videos` is an input, not recomputed from the per-date files.
- Recent.RecentView: requires `dayz` to be below the number of dates. The program indexes `dates[dayz]` and raises `IndexError` otherwise.
- Recent.RecentView: this case does arise. `compute_evolution_file` only checks `max_dates >= nb_dates` (youtube_snowball.py:1295-1296), while `dates` was cut to the folders found (youtube_snowball.py:915). With the default `max_dates=31` (youtube_snowball.py:884) and 30 or fewer snapshot folders, the 30-day file calls `compute_recent_views(30)` and indexes past the end of `dates`.
- TextParse.ReplaceAll: an empty pattern leaves the text unchanged, where Python inserts the replacement between characters. The program calls `replace` twice: `PT` in the duration reader (youtube_snowball.py:397) and `base_domain` in the folder names (youtube_snowball.py:913). Both replace by the empty string, and Python's `str.replace` with an empty pattern and an empty replacement also returns the text unchanged, so the difference never shows.
- Recent.SortedChannelsFacts: requires a listing without repeats, because the program's input is a set.
- Recent.SortedChannels: the input set's iteration order is a parameter (the listing).
- Recent.BigChannels: `chaname_to_subs` (youtube_snowball.py:1071-1073), the subscriber counts keyed by channel title, is the input `subs`, read with default 0 as `chaname_to_subs.get(chan, 0)` does (youtube_snowball.py:1086); its construction from `channel_stats` is not modelled.
- TextParse.PyInt: Python's `int` is modelled on an optional sign and ASCII digits only. Whitespace, underscores and non-ASCII digits are read as errors.
- Snowball.ChannelScrapper.Snowball: the program's `while` loop is followed as written: round k attempts the first k channels of the ranking. There is no early stop when candidates run out, since the program has none.
- `.get(key, default)` on loosely typed records becomes an explicit `Option` with the same default.
