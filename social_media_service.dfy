/** The social media service: an engagement score per post (weighted counts,
    platform reach, recency), posts of one product ranked by it with reach and
    platform aggregates over all of them, trending posts, and the partial
    update of a post's counts. The clock is the parameter `now` (milliseconds)
    and the database read is the input sequence. */
module SocialMediaService {
  import opened Common
  import opened Ranking
  import opened Schema

  const MsPerDay: int := 86400000  // 1000 * 60 * 60 * 24
  const DefaultLimit: int := 10
  const TopPlatformLimit: int := 5
  const TrendingWindowDays: int := 30

  /** Estimated audience per platform, in millions, keyed by lower-case name. */
  const PlatformReachScores: map<string, nat> := map[
    "instagram" := 1200,
    "tiktok" := 1000,
    "youtube" := 2300,
    "facebook" := 2900,
    "twitter" := 350,
    "pinterest" := 450,
    "reddit" := 430,
    "linkedin" := 850]

  /** `platformReachScores[platform.toLowerCase()] || 100`. */
  function ReachScore(platform: string): (r: nat)
    ensures 100 <= r <= 2900
    ensures Lower(platform) !in PlatformReachScores ==> r == 100
  {
    var key := Lower(platform);
    if key in PlatformReachScores && PlatformReachScores[key] != 0 then PlatformReachScores[key] else 100
  }

  /** A reach score rescaled linearly from [100, 3000] to [0.5, 1.5], capped at 3000. */
  function MultiplierForReach(reach: nat): (m: real)
    ensures 100 <= reach ==> 0.5 <= m
    ensures m <= 1.5
  {
    0.5 + (Min(reach, 3000) - 100) as real / 2900.0
  }

  /** `getPlatformReachMultiplier`: between 0.5 and 1.5 for every platform;
      a platform missing from the table gets the multiplier of reach 100. */
  function ReachMultiplier(platform: string): (m: real)
    ensures 0.5 <= m <= 1.5
    ensures Lower(platform) !in PlatformReachScores ==> m == MultiplierForReach(100) == 0.5
  {
    MultiplierForReach(ReachScore(platform))
  }

  /** Weighted engagement: likes·1 + comments·3 + shares·5 + views·0.1 + saves·2, absent counts read as 0. */
  function BaseEngagement(post: SocialMediaPost): (r: real)
    ensures 0.0 <= r
  {
    post.likes.GetOr(0) as real * 1.0
    + post.comments.GetOr(0) as real * 3.0
    + post.shares.GetOr(0) as real * 5.0
    + post.views.GetOr(0) as real * 0.1
    + post.saves.GetOr(0) as real * 2.0
  }

  function AgeInDays(now: int, at: int): real {
    (now - at) as real / 86400000.0
  }

  /** Full weight on the day of posting, falling linearly to half at 30 days, never below half. */
  function RecencyFactor(ageInDays: real): (f: real)
    ensures 0.5 <= f
    ensures 0.0 <= ageInDays ==> f <= 1.0
    ensures ageInDays == 0.0 ==> f == 1.0
    ensures 30.0 <= ageInDays ==> f == 0.5
  {
    MaxReal(0.5, 1.0 - (ageInDays / 30.0) * 0.5)
  }

  /** `calculateEngagementScore`: the weighted engagement times the reach
      multiplier, times the recency factor when the post has a date. */
  function EngagementScore(post: SocialMediaPost, now: int): (score: real)
    ensures 0.0 <= score
  {
    var score := BaseEngagement(post) * ReachMultiplier(post.platform);
    if post.postedAt.Some? then score * RecencyFactor(AgeInDays(now, post.postedAt.value)) else score
  }

  function ScoreAt(now: int): SocialMediaPost -> real {
    p => EngagementScore(p, now)
  }

  // ---------------------------------------------------------------------
  // Properties of the score
  // ---------------------------------------------------------------------

  /** q has at least every count of p, and strictly more of one. */
  predicate MoreEngaged(p: SocialMediaPost, q: SocialMediaPost) {
    && p.likes.GetOr(0) <= q.likes.GetOr(0)
    && p.comments.GetOr(0) <= q.comments.GetOr(0)
    && p.shares.GetOr(0) <= q.shares.GetOr(0)
    && p.views.GetOr(0) <= q.views.GetOr(0)
    && p.saves.GetOr(0) <= q.saves.GetOr(0)
    && (|| p.likes.GetOr(0) < q.likes.GetOr(0)
        || p.comments.GetOr(0) < q.comments.GetOr(0)
        || p.shares.GetOr(0) < q.shares.GetOr(0)
        || p.views.GetOr(0) < q.views.GetOr(0)
        || p.saves.GetOr(0) < q.saves.GetOr(0))
  }

  /** Raising any count, with platform and date unchanged, strictly raises the
      score: every multiplier is positive. */
  lemma ScoreMonotone(p: SocialMediaPost, q: SocialMediaPost, now: int)
    requires MoreEngaged(p, q)
    requires p.platform == q.platform && p.postedAt == q.postedAt
    ensures EngagementScore(p, now) < EngagementScore(q, now)
  {
    BaseMonotone(p, q);
    ScoreMonotoneInBase(p, q, now);
  }

  /** With platform and date fixed, the score is strictly increasing in the weighted engagement. */
  lemma ScoreMonotoneInBase(p: SocialMediaPost, q: SocialMediaPost, now: int)
    requires BaseEngagement(p) < BaseEngagement(q)
    requires p.platform == q.platform && p.postedAt == q.postedAt
    ensures EngagementScore(p, now) < EngagementScore(q, now)
  {
    var m, f := ReachMultiplier(p.platform), DateFactor(p.postedAt, now);
    ScoreFactors(p, now, BaseEngagement(p), m, f);
    ScoreFactors(q, now, BaseEngagement(q), m, f);
    ProductMonotone(BaseEngagement(p), BaseEngagement(q), m, f);
  }

  lemma BaseMonotone(p: SocialMediaPost, q: SocialMediaPost)
    requires MoreEngaged(p, q)
    ensures BaseEngagement(p) < BaseEngagement(q)
  {
  }

  /** The recency factor of a dated post, 1 for an undated one. */
  function DateFactor(postedAt: Option<int>, now: int): (f: real)
    ensures 0.5 <= f
    ensures postedAt.None? ==> f == 1.0
  {
    if postedAt.Some? then RecencyFactor(AgeInDays(now, postedAt.value)) else 1.0
  }

  /** The score is the weighted engagement times two positive factors. */
  lemma ScoreFactors(post: SocialMediaPost, now: int, b: real, m: real, f: real)
    requires b == BaseEngagement(post)
    requires m == ReachMultiplier(post.platform) && f == DateFactor(post.postedAt, now)
    ensures EngagementScore(post, now) == Scaled(b, m, f)
  {
  }

  /** A weighted engagement with its two factors applied. */
  function Scaled(base: real, m: real, f: real): real {
    base * m * f
  }

  lemma ProductMonotone(a: real, b: real, m: real, f: real)
    requires a < b && 0.0 < m && 0.0 < f
    ensures Scaled(a, m, f) < Scaled(b, m, f)
  {
    assert a * m < b * m;
  }

  /** For a post no older than now, recency keeps between half and all of the
      undated score (the same post without a date, or posted at `now`). */
  lemma RecencyBounds(post: SocialMediaPost, now: int)
    requires post.postedAt.Some? && post.postedAt.value <= now
    ensures var undated := EngagementScore(post.(postedAt := None), now);
      0.5 * undated <= EngagementScore(post, now) <= undated
    ensures EngagementScore(post.(postedAt := Some(now)), now) == EngagementScore(post.(postedAt := None), now)
  {
    var b, m := BaseEngagement(post), ReachMultiplier(post.platform);
    var f := DateFactor(post.postedAt, now);
    AgeNonNegative(now, post.postedAt.value);
    AgeNonNegative(now, now);
    ScoreFactors(post, now, b, m, f);
    ScoreFactors(post.(postedAt := None), now, b, m, 1.0);
    ScoreFactors(post.(postedAt := Some(now)), now, b, m, 1.0);
    BoundedMul(b, m, f);
  }

  lemma AgeNonNegative(now: int, at: int)
    requires at <= now
    ensures 0.0 <= AgeInDays(now, at)
    ensures at == now ==> AgeInDays(now, at) == 0.0
  {
  }

  lemma BoundedMul(b: real, m: real, f: real)
    requires 0.0 <= b && 0.0 <= m && 0.5 <= f <= 1.0
    ensures 0.5 * Scaled(b, m, 1.0) <= Scaled(b, m, f) <= Scaled(b, m, 1.0)
  {
    var s := b * m;
    assert 0.0 <= s;
    assert Scaled(b, m, f) == s * f && Scaled(b, m, 1.0) == s;
    NonNegativeProduct(s, 1.0 - f);
    NonNegativeProduct(s, f - 0.5);
  }

  // ---------------------------------------------------------------------
  // Posts of one product
  // ---------------------------------------------------------------------

  /** Reach of one post: its views, or five times its likes when views is 0 or missing. */
  function PostReach(post: SocialMediaPost): nat {
    var views := post.views.GetOr(0);
    var likes := post.likes.GetOr(0);
    if views != 0 then views else likes * 5
  }

  function TotalReach(posts: seq<SocialMediaPost>): nat {
    if posts == [] then 0 else TotalReach(posts[..|posts| - 1]) + PostReach(posts[|posts| - 1])
  }

  /** The total reach of a list is the sum of the reaches of its parts. */
  lemma {:induction false} TotalReachAppend(a: seq<SocialMediaPost>, b: seq<SocialMediaPost>)
    ensures TotalReach(a + b) == TotalReach(a) + TotalReach(b)
  {
    if b != [] {
      TotalReachAppend(a, b[..|b| - 1]);
      assert (a + b)[..|a + b| - 1] == a + b[..|b| - 1];
    } else {
      assert a + b == a;
    }
  }

  function Platforms(posts: seq<SocialMediaPost>): seq<string> {
    seq(|posts|, i requires 0 <= i < |posts| => posts[i].platform)
  }

  /** `postsWithScore.sort(...).slice(0, limit).map(p => p.post)`. */
  function TopPosts(posts: seq<SocialMediaPost>, now: int, limit: int): seq<SocialMediaPost> {
    Top(ByScore(posts, ScoreAt(now)), limit)
  }

  /** The ranked posts: at most `limit` of them, each from the input, highest
      score first, no post left out scoring above a post kept. */
  lemma TopPostsSpec(posts: seq<SocialMediaPost>, now: int, limit: int)
    ensures 0 <= limit ==> |TopPosts(posts, now, limit)| == Min(limit, |posts|)
    ensures forall p :: p in TopPosts(posts, now, limit) ==> p in posts
    ensures forall i, j :: 0 <= i < j < |TopPosts(posts, now, limit)| ==>
      EngagementScore(TopPosts(posts, now, limit)[i], now) >= EngagementScore(TopPosts(posts, now, limit)[j], now)
    ensures forall p, q :: p in TopPosts(posts, now, limit) && q in posts && q !in TopPosts(posts, now, limit) ==>
      EngagementScore(p, now) >= EngagementScore(q, now)
  {
    TopByScore(posts, ScoreAt(now), limit);
  }

  /** Ties keep input order: the kept posts with score v are the first posts
      with score v in the input, in input order. */
  lemma TopPostsStable(posts: seq<SocialMediaPost>, now: int, limit: int, v: real)
    ensures WithKey(Ranked(ByScore(posts, ScoreAt(now)), limit), Key(0, v)) <= WithKey(ByScore(posts, ScoreAt(now)), Key(0, v))
  {
    RankedStable(ByScore(posts, ScoreAt(now)), limit, Key(0, v));
  }

  datatype ProductPosts = ProductPosts(posts: seq<SocialMediaPost>, totalReach: nat, topPlatforms: seq<PlatformCount>)

  /** `getProductSocialMediaPosts` over the product's posts: the ranked top
      posts, with total reach and platform counts taken over all the posts. */
  method GetProductSocialMediaPosts(posts: seq<SocialMediaPost>, now: int, limit: Option<int>) returns (r: ProductPosts)
    ensures r.posts == TopPosts(posts, now, limit.GetOr(DefaultLimit))
    ensures r.totalReach == TotalReach(posts)
    ensures r.topPlatforms == TopPlatforms(TallyOf(Platforms(posts)), TopPlatformLimit)
    ensures 0 <= limit.GetOr(DefaultLimit) ==> |r.posts| <= limit.GetOr(DefaultLimit)
    ensures |r.topPlatforms| <= TopPlatformLimit
  {
    var n := limit.GetOr(DefaultLimit);
    var topPosts := TopPosts(posts, now, n);
    TopPostsSpec(posts, now, n);
    var counts := EmptyTally;
    var totalReach := 0;
    var i := 0;
    while i < |posts|
      invariant 0 <= i <= |posts|
      invariant counts == TallyOf(Platforms(posts[..i]))
      invariant totalReach == TotalReach(posts[..i])
    {
      assert Platforms(posts[..i + 1]) == Platforms(posts[..i]) + [posts[i].platform];
      assert posts[..i + 1][..i] == posts[..i];
      counts := Bump(counts, posts[i].platform);
      totalReach := totalReach + PostReach(posts[i]);
      i := i + 1;
    }
    assert posts[..i] == posts;
    TopPlatformsCounts(Platforms(posts), TopPlatformLimit);
    r := ProductPosts(topPosts, totalReach, TopPlatforms(counts, TopPlatformLimit));
  }

  // ---------------------------------------------------------------------
  // Trending posts
  // ---------------------------------------------------------------------

  /** `new Date(post.postedAt) >= thirtyDaysAgo`; a missing date reads as the epoch. */
  predicate IsRecent(post: SocialMediaPost, cutoff: int) {
    post.postedAt.GetOr(0) >= cutoff
  }

  function RecentAfter(cutoff: int): SocialMediaPost -> bool {
    p => IsRecent(p, cutoff)
  }

  /** `getTrendingSocialMediaPosts`: the posts of the last 30 days, ranked and cut to `limit`. */
  function TrendingSocialMediaPosts(posts: seq<SocialMediaPost>, now: int, limit: Option<int>): seq<SocialMediaPost> {
    TopPosts(Filter(posts, RecentAfter(now - TrendingWindowDays * MsPerDay)), now, limit.GetOr(DefaultLimit))
  }

  /** Trending posts are posts of the input dated within 30 days of now, at
      most `limit`, highest score first, and no recent post left out scores
      above one that was kept. */
  lemma TrendingSpec(posts: seq<SocialMediaPost>, now: int, limit: Option<int>)
    ensures 0 <= limit.GetOr(DefaultLimit) ==> |TrendingSocialMediaPosts(posts, now, limit)| <= limit.GetOr(DefaultLimit)
    ensures 0 <= limit.GetOr(DefaultLimit) ==>
      |TrendingSocialMediaPosts(posts, now, limit)| ==
        Min(limit.GetOr(DefaultLimit), |Filter(posts, RecentAfter(now - TrendingWindowDays * MsPerDay))|)
    ensures forall p :: p in TrendingSocialMediaPosts(posts, now, limit) ==>
      p in posts && p.postedAt.GetOr(0) >= now - 30 * MsPerDay
    ensures forall i, j :: 0 <= i < j < |TrendingSocialMediaPosts(posts, now, limit)| ==>
      EngagementScore(TrendingSocialMediaPosts(posts, now, limit)[i], now) >= EngagementScore(TrendingSocialMediaPosts(posts, now, limit)[j], now)
    ensures forall p, q ::
      (p in TrendingSocialMediaPosts(posts, now, limit) && q in posts && IsRecent(q, now - 30 * MsPerDay)
       && q !in TrendingSocialMediaPosts(posts, now, limit)) ==> EngagementScore(p, now) >= EngagementScore(q, now)
  {
    var cutoff := now - TrendingWindowDays * MsPerDay;
    var recent := Filter(posts, RecentAfter(cutoff));
    TopPostsSpec(recent, now, limit.GetOr(DefaultLimit));
    forall p | p in recent
      ensures p in posts && IsRecent(p, cutoff)
    {
      FilterMembership(posts, RecentAfter(cutoff), p);
    }
    forall q | q in posts && IsRecent(q, cutoff)
      ensures q in recent
    {
      FilterMembership(posts, RecentAfter(cutoff), q);
    }
  }

  // ---------------------------------------------------------------------
  // Engagement update
  // ---------------------------------------------------------------------

  /** The counts a caller supplies; an absent one is left as stored. */
  datatype EngagementUpdate = EngagementUpdate(
    likes: Option<nat>,
    comments: Option<nat>,
    shares: Option<nat>,
    views: Option<nat>,
    saves: Option<nat>)

  function Overwrite<T>(supplied: Option<T>, stored: Option<T>): Option<T> {
    if supplied.Some? then supplied else stored
  }

  /** The post after `db.update(...).set(updates)`: each supplied count
      replaces the stored one, `updatedAt` becomes now, all else is kept. */
  function ApplyEngagement(post: SocialMediaPost, e: EngagementUpdate, now: int): (r: SocialMediaPost)
    ensures e.likes.Some? ==> r.likes == e.likes
    ensures e.likes.None? ==> r.likes == post.likes
    ensures e.comments.Some? ==> r.comments == e.comments
    ensures e.comments.None? ==> r.comments == post.comments
    ensures e.shares.Some? ==> r.shares == e.shares
    ensures e.shares.None? ==> r.shares == post.shares
    ensures e.views.Some? ==> r.views == e.views
    ensures e.views.None? ==> r.views == post.views
    ensures e.saves.Some? ==> r.saves == e.saves
    ensures e.saves.None? ==> r.saves == post.saves
    ensures r.updatedAt == Some(now)
    ensures r.(likes := post.likes, comments := post.comments, shares := post.shares,
               views := post.views, saves := post.saves, updatedAt := post.updatedAt) == post
  {
    post.(likes := Overwrite(e.likes, post.likes),
          comments := Overwrite(e.comments, post.comments),
          shares := Overwrite(e.shares, post.shares),
          views := Overwrite(e.views, post.views),
          saves := Overwrite(e.saves, post.saves),
          updatedAt := Some(now))
  }

  /** Applying the same update twice is the same as applying it once. */
  lemma ApplyEngagementIdempotent(post: SocialMediaPost, e: EngagementUpdate, now: int)
    ensures ApplyEngagement(ApplyEngagement(post, e, now), e, now) == ApplyEngagement(post, e, now)
  {
  }

  /** `updatePostEngagement` against the posts table (id to post): an unknown
      id yields nothing and leaves the table as it was; a known id has its
      post updated in place and returned. */
  function UpdatePostEngagement(table: map<int, SocialMediaPost>, postId: int, e: EngagementUpdate, now: int)
    : (r: (map<int, SocialMediaPost>, Option<SocialMediaPost>))
    ensures postId !in table ==> r.0 == table && r.1 == None
    ensures postId in table ==> r.1 == Some(ApplyEngagement(table[postId], e, now))
    ensures r.0.Keys == table.Keys
    ensures forall id :: id in table && id != postId ==> r.0[id] == table[id]
    ensures postId in table ==> r.0[postId] == r.1.value
  {
    if postId in table then
      var updated := ApplyEngagement(table[postId], e, now);
      (table[postId := updated], Some(updated))
    else
      (table, None)
  }
}
