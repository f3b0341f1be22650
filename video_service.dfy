/** The video service: an impact score per video review (weighted counts with
    estimated defaults, duration, platform reach, quality, recency), the
    videos of one product ranked by it with view and platform aggregates over
    all of them, the single most impactful video, trending videos, and the
    partial update of a video's counts. The clock is the parameter `now`
    (milliseconds) and the database read is the input sequence. */
module VideoService {
  import opened Common
  import opened Ranking
  import opened Schema

  const DefaultLimit: int := 5
  const TrendingDefaultLimit: int := 10
  const TopPlatformLimit: int := 3
  const MinTrendingViews: nat := 1000
  const MsPerDay: int := 86400000  // 1000 * 60 * 60 * 24

  /** Estimated audience per video platform, in millions, keyed by lower-case name. */
  const PlatformReachScores: map<string, nat> := map[
    "youtube" := 2300,
    "tiktok" := 1000,
    "instagram" := 1200,
    "facebook" := 2900,
    "vimeo" := 260,
    "twitch" := 140,
    "dailymotion" := 300]

  /** `platformReachScores[platform.toLowerCase()] || 100`. */
  function ReachScore(platform: string): (r: nat)
    ensures 100 <= r <= 2900
    ensures Lower(platform) !in PlatformReachScores ==> r == 100
  {
    var key := Lower(platform);
    if key in PlatformReachScores && PlatformReachScores[key] != 0 then PlatformReachScores[key] else 100
  }

  /** A reach score rescaled linearly from [100, 3000] to [0.7, 1.3], capped at 3000. */
  function MultiplierForReach(reach: nat): (m: real)
    ensures 100 <= reach ==> 0.7 <= m
    ensures m <= 1.3
  {
    0.7 + (Min(reach, 3000) - 100) as real / 2900.0 * 0.6
  }

  /** `getPlatformReachMultiplier`: between 0.7 and 1.3 for every platform;
      a platform missing from the table gets the lowest, 0.7. */
  function ReachMultiplier(platform: string): (m: real)
    ensures 0.7 <= m <= 1.3
    ensures Lower(platform) !in PlatformReachScores ==> m == 0.7
  {
    MultiplierForReach(ReachScore(platform))
  }

  // ---------------------------------------------------------------------
  // The counts and their estimates
  // ---------------------------------------------------------------------

  /** `Math.floor(views * 0.03)`, `Math.floor(views * 0.002)`, `Math.floor(views * 0.005)`. */
  function EstimatedLikes(views: nat): nat { (3 * views) / 100 }
  function EstimatedComments(views: nat): nat { (2 * views) / 1000 }
  function EstimatedShares(views: nat): nat { (5 * views) / 1000 }

  function Views(v: VideoReview): nat { v.viewCount.GetOr(0) }
  function Likes(v: VideoReview): nat { v.likeCount.GetOr(EstimatedLikes(Views(v))) }
  function Comments(v: VideoReview): nat { v.commentCount.GetOr(EstimatedComments(Views(v))) }
  function Shares(v: VideoReview): nat { v.shareCount.GetOr(EstimatedShares(Views(v))) }

  /** views·1 + likes·10 + comments·30 + shares·50 + subscribers·0.01. */
  function BaseImpact(v: VideoReview): (r: real)
    ensures 0.0 <= r
  {
    Views(v) as real * 1.0
    + Likes(v) as real * 10.0
    + Comments(v) as real * 30.0
    + Shares(v) as real * 50.0
    + v.channelSubscriberCount.GetOr(0) as real * 0.01
  }

  // ---------------------------------------------------------------------
  // The factors
  // ---------------------------------------------------------------------

  /** Full weight from 3 to 15 minutes; 0.8 rising to 1 below 3 minutes; falling
      by a sixtieth per minute above 15 minutes, to no less than 0.7. */
  function DurationFactor(minutes: real): (f: real)
    requires 0.0 < minutes
    ensures 0.7 <= f <= 1.0
    ensures minutes < 3.0 ==> 0.8 <= f < 1.0
    ensures 15.0 < minutes ==> 0.7 <= f < 1.0
    ensures 3.0 <= minutes <= 15.0 ==> f == 1.0
  {
    if minutes < 3.0 then 0.8 + minutes / 15.0
    else if minutes > 15.0 then 1.0 - MinReal(0.3, (minutes - 15.0) / 60.0)
    else 1.0
  }

  /** 0.7 for the lowest quality rising linearly to 1.3 at 5. */
  function QualityFactor(quality: real): (f: real)
    ensures 0.0 < quality <= 5.0 ==> 0.7 < f <= 1.3
  {
    0.7 + (quality / 5.0) * 0.6
  }

  function AgeInDays(now: int, at: int): real {
    (now - at) as real / 86400000.0
  }

  /** Full weight on the day of publication, falling linearly to 60% at 90 days, never below. */
  function RecencyFactor(ageInDays: real): (f: real)
    ensures 0.6 <= f
    ensures 0.0 <= ageInDays ==> f <= 1.0
    ensures ageInDays == 0.0 ==> f == 1.0
    ensures 90.0 <= ageInDays ==> f == 0.6
  {
    MaxReal(0.6, 1.0 - (ageInDays / 90.0) * 0.4)
  }

  /** `calculateVideoImpactScore`: the weighted counts, times the duration
      factor when the duration is positive, times the platform multiplier,
      times the quality factor when the quality is positive, times the
      recency factor when the video has a publication date. */
  function ImpactScore(v: VideoReview, now: int): real {
    var score := WithDuration(BaseImpact(v), v.duration);
    var score := score * ReachMultiplier(v.platform);
    var score := WithQuality(score, v.videoQuality);
    WithRecency(score, v.publishedAt, now)
  }

  function WithDuration(score: real, duration: Option<int>): (r: real)
    ensures r == Times(score, DurationTerm(duration))
  {
    var d := duration.GetOr(0);
    if d > 0 then score * DurationFactor(d as real / 60.0) else score
  }

  function WithQuality(score: real, quality: Option<real>): (r: real)
    ensures r == Times(score, QualityTerm(quality))
  {
    var q := quality.GetOr(0.0);
    if q > 0.0 then score * QualityFactor(q) else score
  }

  function WithRecency(score: real, publishedAt: Option<int>, now: int): (r: real)
    ensures r == Times(score, DateTerm(publishedAt, now))
  {
    if publishedAt.Some? then score * RecencyFactor(AgeInDays(now, publishedAt.value)) else score
  }

  function ImpactAt(now: int): VideoReview -> real {
    v => ImpactScore(v, now)
  }

  // ---------------------------------------------------------------------
  // Properties of the score
  // ---------------------------------------------------------------------

  /** The factor each optional adjustment contributes, 1 when it is not applied. */
  function DurationTerm(duration: Option<int>): (f: real)
    ensures 0.7 <= f <= 1.0
  {
    var d := duration.GetOr(0);
    if d > 0 then DurationFactor(d as real / 60.0) else 1.0
  }

  function QualityTerm(quality: Option<real>): (f: real)
    ensures 0.0 < f
    ensures quality.GetOr(0.0) <= 5.0 ==> f <= 1.3
  {
    var q := quality.GetOr(0.0);
    if q > 0.0 then QualityFactor(q) else 1.0
  }

  function DateTerm(publishedAt: Option<int>, now: int): (f: real)
    ensures 0.6 <= f
    ensures publishedAt.Some? && publishedAt.value <= now ==> f <= 1.0
    ensures publishedAt.None? ==> f == 1.0
  {
    if publishedAt.Some? then RecencyFactor(AgeInDays(now, publishedAt.value)) else 1.0
  }

  function Times(x: real, y: real): real { x * y }

  /** Weighted counts with the four factors applied, in the order the score applies them. */
  function Scaled(base: real, d: real, m: real, q: real, r: real): real {
    Times(Times(Times(Times(base, d), m), q), r)
  }

  /** The score is the weighted counts times four positive factors. */
  lemma ImpactFactors(v: VideoReview, now: int, b: real, d: real, m: real, q: real, r: real)
    requires b == BaseImpact(v) && d == DurationTerm(v.duration) && m == ReachMultiplier(v.platform)
    requires q == QualityTerm(v.videoQuality) && r == DateTerm(v.publishedAt, now)
    ensures ImpactScore(v, now) == Scaled(b, d, m, q, r)
  {
    var s1 := WithDuration(b, v.duration);
    assert s1 == Times(b, d);
    var s2 := s1 * m;
    assert s2 == Times(s1, m);
    var s3 := WithQuality(s2, v.videoQuality);
    assert s3 == Times(s2, q);
    var s4 := WithRecency(s3, v.publishedAt, now);
    assert s4 == Times(s3, r);
    assert ImpactScore(v, now) == s4;
  }

  lemma ScaledPositive(b: real, d: real, m: real, q: real, r: real)
    requires 0.0 <= b && 0.0 < d && 0.0 < m && 0.0 < q && 0.0 < r
    ensures 0.0 <= Scaled(b, d, m, q, r)
  {
    assert 0.0 <= b * d;
    assert 0.0 <= b * d * m;
    assert 0.0 <= b * d * m * q;
  }

  lemma ScaledMonotone(a: real, b: real, d: real, m: real, q: real, r: real)
    requires a < b && 0.0 < d && 0.0 < m && 0.0 < q && 0.0 < r
    ensures Scaled(a, d, m, q, r) < Scaled(b, d, m, q, r)
  {
    StrictTimes(a, b, d);
    StrictTimes(Times(a, d), Times(b, d), m);
    StrictTimes(Times(Times(a, d), m), Times(Times(b, d), m), q);
    StrictTimes(Times(Times(Times(a, d), m), q), Times(Times(Times(b, d), m), q), r);
  }

  lemma StrictTimes(x: real, y: real, c: real)
    requires x < y && 0.0 < c
    ensures Times(x, c) < Times(y, c)
  {
  }

  /** Every impact score is non-negative. */
  lemma ImpactNonNegative(v: VideoReview, now: int)
    ensures 0.0 <= ImpactScore(v, now)
  {
    var b, d, m := BaseImpact(v), DurationTerm(v.duration), ReachMultiplier(v.platform);
    var q, r := QualityTerm(v.videoQuality), DateTerm(v.publishedAt, now);
    ImpactFactors(v, now, b, d, m, q, r);
    ScaledPositive(b, d, m, q, r);
  }

  /** With duration, platform, quality and date fixed, the score is strictly
      increasing in the weighted counts. */
  lemma ImpactMonotoneInBase(v: VideoReview, w: VideoReview, now: int)
    requires BaseImpact(v) < BaseImpact(w)
    requires v.duration == w.duration && v.platform == w.platform
    requires v.videoQuality == w.videoQuality && v.publishedAt == w.publishedAt
    ensures ImpactScore(v, now) < ImpactScore(w, now)
  {
    var d, m := DurationTerm(v.duration), ReachMultiplier(v.platform);
    var q, r := QualityTerm(v.videoQuality), DateTerm(v.publishedAt, now);
    ImpactFactors(v, now, BaseImpact(v), d, m, q, r);
    ImpactFactors(w, now, BaseImpact(w), d, m, q, r);
    ScaledMonotone(BaseImpact(v), BaseImpact(w), d, m, q, r);
  }

  /** More views, everything else equal, means a strictly higher score, also
      when likes, comments or shares are estimated from the views. */
  lemma MoreViewsMoreImpact(v: VideoReview, views: nat, now: int)
    requires Views(v) < views
    ensures ImpactScore(v, now) < ImpactScore(v.(viewCount := Some(views)), now)
  {
    var w := v.(viewCount := Some(views));
    EstimatesMonotone(Views(v), views);
    assert Likes(v) <= Likes(w) && Comments(v) <= Comments(w) && Shares(v) <= Shares(w);
    assert BaseImpact(v) < BaseImpact(w);
    ImpactMonotoneInBase(v, w, now);
  }

  lemma EstimatesMonotone(a: nat, b: nat)
    requires a <= b
    ensures EstimatedLikes(a) <= EstimatedLikes(b)
    ensures EstimatedComments(a) <= EstimatedComments(b)
    ensures EstimatedShares(a) <= EstimatedShares(b)
  {
  }

  /** A missing like, comment or share count scores exactly as if the
      estimate from the views had been stored. */
  lemma EstimatesStandIn(v: VideoReview)
    ensures BaseImpact(v) == BaseImpact(v.(likeCount := Some(Likes(v)),
                                           commentCount := Some(Comments(v)),
                                           shareCount := Some(Shares(v))))
  {
  }

  /** An explicit zero is kept rather than estimated: once the views are high
      enough for a non-zero estimate, a stored 0 likes scores lower than a
      missing like count. */
  lemma ExplicitZeroKept(v: VideoReview)
    requires 34 <= Views(v)
    ensures Likes(v.(likeCount := Some(0))) == 0
    ensures BaseImpact(v.(likeCount := Some(0))) < BaseImpact(v.(likeCount := None))
  {
    assert EstimatedLikes(Views(v)) >= 1;
  }

  /** For a video published no later than now, recency keeps between 60% and
      all of the undated score. */
  lemma RecencyBounds(v: VideoReview, now: int)
    requires v.publishedAt.Some? && v.publishedAt.value <= now
    ensures var undated := ImpactScore(v.(publishedAt := None), now);
      0.6 * undated <= ImpactScore(v, now) <= undated
  {
    var b, d, m := BaseImpact(v), DurationTerm(v.duration), ReachMultiplier(v.platform);
    var q, r := QualityTerm(v.videoQuality), DateTerm(v.publishedAt, now);
    ImpactFactors(v, now, b, d, m, q, r);
    ImpactFactors(v.(publishedAt := None), now, b, d, m, q, 1.0);
    ScaledRecency(b, d, m, q, r);
  }

  lemma ScaledRecency(b: real, d: real, m: real, q: real, r: real)
    requires 0.0 <= b && 0.0 < d && 0.0 < m && 0.0 < q && 0.6 <= r <= 1.0
    ensures 0.6 * Scaled(b, d, m, q, 1.0) <= Scaled(b, d, m, q, r) <= Scaled(b, d, m, q, 1.0)
  {
    ScaledPositive(b, d, m, q, 1.0);
    var s := b * d * m * q;
    assert Scaled(b, d, m, q, r) == s * r && Scaled(b, d, m, q, 1.0) == s;
    NonNegativeProduct(s, 1.0 - r);
    NonNegativeProduct(s, r - 0.6);
  }

  // ---------------------------------------------------------------------
  // Videos of one product
  // ---------------------------------------------------------------------

  /** `video.viewCount || 0`. */
  function ViewsOrZero(v: VideoReview): nat {
    if v.viewCount.Some? && v.viewCount.value != 0 then v.viewCount.value else 0
  }

  function TotalViews(videos: seq<VideoReview>): nat {
    if videos == [] then 0 else TotalViews(videos[..|videos| - 1]) + ViewsOrZero(videos[|videos| - 1])
  }

  /** The total views of a list is the sum over its parts, each video counting its
      stored views, a missing count as none. */
  lemma {:induction false} TotalViewsAppend(a: seq<VideoReview>, b: seq<VideoReview>)
    ensures TotalViews(a + b) == TotalViews(a) + TotalViews(b)
    ensures TotalViews([]) == 0
    ensures forall v :: TotalViews([v]) == v.viewCount.GetOr(0)
  {
    if b != [] {
      TotalViewsAppend(a, b[..|b| - 1]);
      assert (a + b)[..|a + b| - 1] == a + b[..|b| - 1];
    } else {
      assert a + b == a;
    }
    forall v
      ensures TotalViews([v]) == v.viewCount.GetOr(0)
    {
      assert [v][..0] == [];
    }
  }

  function Platforms(videos: seq<VideoReview>): seq<string> {
    seq(|videos|, i requires 0 <= i < |videos| => videos[i].platform)
  }

  /** `videosWithScore.sort(...).slice(0, limit).map(v => v.video)`. */
  function TopVideos(videos: seq<VideoReview>, now: int, limit: int): seq<VideoReview> {
    Top(ByScore(videos, ImpactAt(now)), limit)
  }

  /** The ranked videos: at most `limit`, each from the input, highest impact
      first, no video left out scoring above a video kept. */
  lemma TopVideosSpec(videos: seq<VideoReview>, now: int, limit: int)
    ensures 0 <= limit ==> |TopVideos(videos, now, limit)| == Min(limit, |videos|)
    ensures forall v :: v in TopVideos(videos, now, limit) ==> v in videos
    ensures forall i, j :: 0 <= i < j < |TopVideos(videos, now, limit)| ==>
      ImpactScore(TopVideos(videos, now, limit)[i], now) >= ImpactScore(TopVideos(videos, now, limit)[j], now)
    ensures forall v, w :: v in TopVideos(videos, now, limit) && w in videos && w !in TopVideos(videos, now, limit) ==>
      ImpactScore(v, now) >= ImpactScore(w, now)
  {
    TopByScore(videos, ImpactAt(now), limit);
  }

  /** Ties keep input order: the kept videos with impact v are the first
      videos with impact v in the input, in input order. */
  lemma TopVideosStable(videos: seq<VideoReview>, now: int, limit: int, v: real)
    ensures WithKey(Ranked(ByScore(videos, ImpactAt(now)), limit), Key(0, v)) <= WithKey(ByScore(videos, ImpactAt(now)), Key(0, v))
  {
    RankedStable(ByScore(videos, ImpactAt(now)), limit, Key(0, v));
  }

  datatype ProductVideos = ProductVideos(videos: seq<VideoReview>, totalViews: nat, topPlatforms: seq<PlatformCount>)

  /** `getProductVideoReviews` over the product's videos: the ranked top
      videos, with total views and platform counts taken over all of them. */
  method GetProductVideoReviews(videos: seq<VideoReview>, now: int, limit: Option<int>) returns (r: ProductVideos)
    ensures r.videos == TopVideos(videos, now, limit.GetOr(DefaultLimit))
    ensures r.totalViews == TotalViews(videos)
    ensures r.topPlatforms == TopPlatforms(TallyOf(Platforms(videos)), TopPlatformLimit)
    ensures 0 <= limit.GetOr(DefaultLimit) ==> |r.videos| <= limit.GetOr(DefaultLimit)
    ensures |r.topPlatforms| <= TopPlatformLimit
  {
    var n := limit.GetOr(DefaultLimit);
    var topVideos := TopVideos(videos, now, n);
    TopVideosSpec(videos, now, n);
    var counts := EmptyTally;
    var totalViews := 0;
    var i := 0;
    while i < |videos|
      invariant 0 <= i <= |videos|
      invariant counts == TallyOf(Platforms(videos[..i]))
      invariant totalViews == TotalViews(videos[..i])
    {
      assert Platforms(videos[..i + 1]) == Platforms(videos[..i]) + [videos[i].platform];
      assert videos[..i + 1][..i] == videos[..i];
      counts := Bump(counts, videos[i].platform);
      totalViews := totalViews + ViewsOrZero(videos[i]);
      i := i + 1;
    }
    assert videos[..i] == videos;
    TopPlatformsCounts(Platforms(videos), TopPlatformLimit);
    r := ProductVideos(topVideos, totalViews, TopPlatforms(counts, TopPlatformLimit));
  }

  /** `getMostImpactfulVideoReview`: the head of the ranking, or nothing for no videos. */
  function MostImpactful(videos: seq<VideoReview>, now: int): Option<VideoReview> {
    if |videos| == 0 then None else Some(Sort(ByScore(videos, ImpactAt(now)))[0].item)
  }

  /** Nothing exactly when there are no videos; otherwise a video of the
      input whose impact is at least every other's, and the first such in
      input order. */
  lemma MostImpactfulSpec(videos: seq<VideoReview>, now: int)
    ensures MostImpactful(videos, now).None? <==> videos == []
    ensures MostImpactful(videos, now).Some? ==>
      exists i :: 0 <= i < |videos| && videos[i] == MostImpactful(videos, now).value &&
                  (forall j :: 0 <= j < |videos| ==> ImpactScore(videos[j], now) <= ImpactScore(videos[i], now)) &&
                  (forall j :: 0 <= j < i ==> ImpactScore(videos[j], now) < ImpactScore(videos[i], now))
  {
    if videos != [] {
      var s := ByScore(videos, ImpactAt(now));
      SortHead(s);
      var i :| 0 <= i < |s| && Sort(s)[0] == s[i] &&
               (forall j :: 0 <= j < |s| ==> AtLeast(s[i].key, s[j].key)) &&
               (forall j :: 0 <= j < i ==> s[j].key != s[i].key);
      assert videos[i] == MostImpactful(videos, now).value;
      forall j | 0 <= j < |videos|
        ensures ImpactScore(videos[j], now) <= ImpactScore(videos[i], now)
      {
        assert AtLeast(s[i].key, s[j].key);
      }
      forall j | 0 <= j < i
        ensures ImpactScore(videos[j], now) < ImpactScore(videos[i], now)
      {
        assert AtLeast(s[i].key, s[j].key) && s[j].key != s[i].key;
      }
    }
  }

  // ---------------------------------------------------------------------
  // Trending videos
  // ---------------------------------------------------------------------

  /** At least 1000 views (a missing count is 0), and published no earlier
      than the cutoff or not dated at all. */
  predicate IsTrendingCandidate(v: VideoReview, cutoff: int) {
    Views(v) >= MinTrendingViews && (v.publishedAt.None? || v.publishedAt.value >= cutoff)
  }

  function CandidateAfter(cutoff: int): VideoReview -> bool {
    v => IsTrendingCandidate(v, cutoff)
  }

  /** `getTrendingVideoReviews`: the candidates of the last 30 days, ranked and cut to `limit`. */
  function TrendingVideoReviews(videos: seq<VideoReview>, now: int, limit: Option<int>): seq<VideoReview> {
    TopVideos(Filter(videos, CandidateAfter(now - 30 * MsPerDay)), now, limit.GetOr(TrendingDefaultLimit))
  }

  /** Trending videos come from the input, have at least 1000 views and no
      date or a date within 30 days of now, number at most `limit`, come
      highest impact first, and no candidate left out scores above one kept. */
  lemma TrendingSpec(videos: seq<VideoReview>, now: int, limit: Option<int>)
    ensures 0 <= limit.GetOr(TrendingDefaultLimit) ==> |TrendingVideoReviews(videos, now, limit)| <= limit.GetOr(TrendingDefaultLimit)
    ensures 0 <= limit.GetOr(TrendingDefaultLimit) ==>
      |TrendingVideoReviews(videos, now, limit)| ==
        Min(limit.GetOr(TrendingDefaultLimit), |Filter(videos, CandidateAfter(now - 30 * MsPerDay))|)
    ensures forall v :: v in TrendingVideoReviews(videos, now, limit) ==>
      v in videos && v.viewCount.GetOr(0) >= 1000 &&
      (v.publishedAt.None? || v.publishedAt.value >= now - 30 * MsPerDay)
    ensures forall i, j :: 0 <= i < j < |TrendingVideoReviews(videos, now, limit)| ==>
      ImpactScore(TrendingVideoReviews(videos, now, limit)[i], now) >= ImpactScore(TrendingVideoReviews(videos, now, limit)[j], now)
    ensures forall v, w ::
      (v in TrendingVideoReviews(videos, now, limit) && w in videos && IsTrendingCandidate(w, now - 30 * MsPerDay) &&
       w !in TrendingVideoReviews(videos, now, limit)) ==> ImpactScore(v, now) >= ImpactScore(w, now)
  {
    var cutoff := now - 30 * MsPerDay;
    var candidates := Filter(videos, CandidateAfter(cutoff));
    TopVideosSpec(candidates, now, limit.GetOr(TrendingDefaultLimit));
    forall v | v in candidates
      ensures v in videos && IsTrendingCandidate(v, cutoff)
    {
      FilterMembership(videos, CandidateAfter(cutoff), v);
    }
    forall w | w in videos && IsTrendingCandidate(w, cutoff)
      ensures w in candidates
    {
      FilterMembership(videos, CandidateAfter(cutoff), w);
    }
  }

  // ---------------------------------------------------------------------
  // Engagement update
  // ---------------------------------------------------------------------

  /** The metrics a caller supplies; an absent one is left as stored. */
  datatype EngagementUpdate = EngagementUpdate(
    viewCount: Option<nat>,
    likeCount: Option<nat>,
    commentCount: Option<nat>,
    shareCount: Option<nat>,
    channelSubscriberCount: Option<nat>,
    videoQuality: Option<real>)

  function Overwrite<T>(supplied: Option<T>, stored: Option<T>): Option<T> {
    if supplied.Some? then supplied else stored
  }

  /** The video after `db.update(...).set(updates)`: each supplied metric
      replaces the stored one, `updatedAt` becomes now, all else is kept. */
  function ApplyEngagement(v: VideoReview, e: EngagementUpdate, now: int): (r: VideoReview)
    ensures e.viewCount.Some? ==> r.viewCount == e.viewCount
    ensures e.viewCount.None? ==> r.viewCount == v.viewCount
    ensures e.likeCount.Some? ==> r.likeCount == e.likeCount
    ensures e.likeCount.None? ==> r.likeCount == v.likeCount
    ensures e.commentCount.Some? ==> r.commentCount == e.commentCount
    ensures e.commentCount.None? ==> r.commentCount == v.commentCount
    ensures e.shareCount.Some? ==> r.shareCount == e.shareCount
    ensures e.shareCount.None? ==> r.shareCount == v.shareCount
    ensures e.channelSubscriberCount.Some? ==> r.channelSubscriberCount == e.channelSubscriberCount
    ensures e.channelSubscriberCount.None? ==> r.channelSubscriberCount == v.channelSubscriberCount
    ensures e.videoQuality.Some? ==> r.videoQuality == e.videoQuality
    ensures e.videoQuality.None? ==> r.videoQuality == v.videoQuality
    ensures r.updatedAt == Some(now)
    ensures r.(viewCount := v.viewCount, likeCount := v.likeCount, commentCount := v.commentCount,
               shareCount := v.shareCount, channelSubscriberCount := v.channelSubscriberCount,
               videoQuality := v.videoQuality, updatedAt := v.updatedAt) == v
  {
    v.(viewCount := Overwrite(e.viewCount, v.viewCount),
       likeCount := Overwrite(e.likeCount, v.likeCount),
       commentCount := Overwrite(e.commentCount, v.commentCount),
       shareCount := Overwrite(e.shareCount, v.shareCount),
       channelSubscriberCount := Overwrite(e.channelSubscriberCount, v.channelSubscriberCount),
       videoQuality := Overwrite(e.videoQuality, v.videoQuality),
       updatedAt := Some(now))
  }

  /** Applying the same update twice is the same as applying it once. */
  lemma ApplyEngagementIdempotent(v: VideoReview, e: EngagementUpdate, now: int)
    ensures ApplyEngagement(ApplyEngagement(v, e, now), e, now) == ApplyEngagement(v, e, now)
  {
  }

  /** `updateVideoEngagement` against the video table (id to video): an
      unknown id yields nothing and leaves the table as it was; a known id
      has its video updated in place and returned. */
  function UpdateVideoEngagement(table: map<int, VideoReview>, videoId: int, e: EngagementUpdate, now: int)
    : (r: (map<int, VideoReview>, Option<VideoReview>))
    ensures videoId !in table ==> r.0 == table && r.1 == None
    ensures videoId in table ==> r.1 == Some(ApplyEngagement(table[videoId], e, now))
    ensures r.0.Keys == table.Keys
    ensures forall id :: id in table && id != videoId ==> r.0[id] == table[id]
    ensures videoId in table ==> r.0[videoId] == r.1.value
  {
    if videoId in table then
      var updated := ApplyEngagement(table[videoId], e, now);
      (table[videoId := updated], Some(updated))
    else
      (table, None)
  }
}
