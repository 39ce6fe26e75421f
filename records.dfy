/** The trending table of the dashboard: one row per video per trending day,
    and the error kinds the data layer can raise. Calendar dates and publish
    days are day numbers; the half-hour publish bin is the label the loader
    stores with each row. */
module Records {

  /** One point of a channel's past cumulative-views history. */
  datatype ViewGain = ViewGain(day: int, views: int)

  datatype Row = Row(
    videoId: string,
    trendingDate: int,
    title: string,
    category: string,
    views: nat,
    likes: nat,
    dislikes: nat,
    comments: nat,
    publishDay: int,
    publishCat: string,
    rank: int,
    thumbnail: string,
    channelTitle: string,
    avatarUrl: string,
    channelType: string,
    currSubs: string,
    country: string,
    rankTier: string,
    pastViewGains: seq<ViewGain>,
    tags: string,
    titleTokens: seq<string>,
    descTokens: seq<string>
  )

  /** A row of one music video, trending on the given day with the given
      Social Blade rank tier; the other columns are fixed. */
  function SampleRow(date: int, tier: string): Row {
    Row("v1", date, "title", "Music", 1, 1, 0, 0, 0, "0:00", 1, "", "channel", "", "Music", "1M",
        "ID", tier, [], "[none]", [], [])
  }

  /** The three engagement columns the top-10 charts rank by. */
  datatype Metric = Views | Likes | Comments

  function MetricOf(m: Metric, r: Row): nat {
    match m
    case Views => r.views
    case Likes => r.likes
    case Comments => r.comments
  }

  /** The identity of a channel in the leaderboard: the four grouping columns. */
  datatype ChannelKey = ChannelKey(title: string, avatar: string, kind: string, subs: string)

  function ChannelKeyOf(r: Row): ChannelKey {
    ChannelKey(r.channelTitle, r.avatarUrl, r.channelType, r.currSubs)
  }

  // Column accessors, passed to the generic sequence operations.
  function VideoId(r: Row): string { r.videoId }
  function TrendingDate(r: Row): int { r.trendingDate }
  function Category(r: Row): string { r.category }
  function PublishDay(r: Row): int { r.publishDay }
  function PublishCat(r: Row): string { r.publishCat }
  function Country(r: Row): string { r.country }
  function ChannelTitle(r: Row): string { r.channelTitle }
  function ChannelType(r: Row): string { r.channelType }
  function Rank(r: Row): int { r.rank }

  /** What the data layer raises: an out-of-range slider index (IndexError), an
      empty table where a last row is written (IndexError), a country code the
      lookup table lacks (KeyError), a rank-tier column the pivot lacks (KeyError). */
  datatype Error =
    | IndexOutOfRange(index: nat)
    | EmptyTable
    | UnknownCountryCode(code: string)
    | MissingRankTier(tier: string)

  datatype Result<T> = Ok(value: T) | Err(error: Error)
}
