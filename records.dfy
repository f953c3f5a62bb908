/** The records the crawler keeps in its dictionaries, reduced to the fields the
    crawl and the analysis read. Identifiers and display names are all Python
    strings; the synonyms only say which is meant where. */
module Records {
  import opened Common

  type VideoId = string
  type ChannelId = string
  type ChannelName = string

  /** An entry of `_scrapped_videos`: what was read from the video's watch page.
      `views`, `likes`, `dislikes` and `duration` hold -1 when the page did not show them. */
  datatype ScrappedVideo = ScrappedVideo(
    views: int,
    likes: int,
    dislikes: int,
    recommendations: seq<VideoId>,
    title: string,
    channel: ChannelName,
    channelId: ChannelId,
    pubdate: string,
    duration: int)

  /** An entry of `_api_videos`: the parts of a `videos.list` item that are read. */
  datatype ApiVideo = ApiVideo(
    channelId: ChannelId,
    channelTitle: ChannelName,
    title: string,
    publishedAt: Option<string>,
    viewCount: Option<int>)

  /** An item of a `videos.list` response, where the channel title may be missing. */
  datatype ApiItem = ApiItem(
    id: VideoId,
    channelId: ChannelId,
    channelTitle: Option<ChannelName>,
    title: string,
    publishedAt: Option<string>,
    viewCount: Option<int>)

  /** The item as it is stored: a missing channel title becomes the empty title. */
  function Stored(item: ApiItem): (v: ApiVideo)
    ensures v.channelId == item.channelId
    ensures v.channelTitle == item.channelTitle.GetOr("")
  {
    ApiVideo(item.channelId, item.channelTitle.GetOr(""), item.title, item.publishedAt, item.viewCount)
  }

  /** The first item of a `channels.list` response, when there is one.
      `featured` is empty when `featuredChannelsUrls` is absent. */
  datatype ChannelInfo = ChannelInfo(
    title: string,
    subscriberCount: Option<int>,
    featured: seq<ChannelId>,
    uploadsPlaylist: string)

  /** An entry of `_channel_stats`: the channel's recent uploads and the
      channels it features. */
  datatype ChannelStats = ChannelStats(
    uploads: seq<VideoId>,
    title: string,
    subscriberCount: Option<int>,
    featured: seq<ChannelId>)
}
