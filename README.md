# Global product search: ranking, catalog queries and notifications, in Dafny

This project models the core of a product search engine written in TypeScript.
It covers five groups of logic.

- **Content scoring and ranking.** These are the social-media and video services.
  - Each post or video review gets an engagement or impact score: weighted counts times a platform-reach multiplier, a recency factor and, for videos, duration and quality factors.
  - The items of one product are ranked by a stable descending sort and cut to a limit.
  - Total reach or total views, and the per-platform counts, are taken over all items.
  - Trending feeds filter the whole catalog by recency (and, for videos, a view threshold) before ranking.
  - Engagement updates overwrite only the counts supplied.
- **The in-memory catalog (`MemStorage`).**
  - Lookups by id and the per-product getters.
  - Featured products, ranked by rating.
  - Search: a conjunction of filters, the count of matches, brand and price facets over the whole catalog, and one page of results.
  - Similar products: same category; same brand first, then closest price.
  - Search suggestions: distinct and capped at five.
- **Notifications.**
  - Server side: a set of connected clients kept current by connect, close and error events, with broadcasts that reach exactly the open clients.
  - Browser side: a hook with a connection status and a reconnect counter bounded by its maximum.
- **The search page's filter state.** Filter merge and reset, page moves, and the total-pages and next/previous predicates.
- **Small helpers.**
  - The star-rating widget's clamp, half-star rounding and slot classification.
  - Embed and watch URL builders and the video-id extractor.
  - The short view-count label.

## Conventions

- Scores are exact `real`s.
- The clock is a parameter `now`, in milliseconds.
- A database read is an input sequence; a table is a `map` from id to row.
- JavaScript's `Array.prototype.sort` is modelled by its contract as a stable insertion sort (`Ranking.Sort`). It is proved sorted, a permutation and stable.
- `Set` and `Record` iteration order is insertion order. `Common.Dedup`, `Common.Add`, `Common.Remove` and `Ranking.Tally` model it.
- Objects whose state the source updates in place are classes:
  - `Notifications.WebSocketService` and `Notifications.Network`;
  - `WebSocketHookModel.WebSocketHook`;
  - `ProductSearchHookModel.ProductSearchHook`.
- Loops that accumulate are methods with loop invariants, proved against specification functions:
  - the platform tally and reach/view totals;
  - the suggestion set;
  - the broadcast.

The notification side is modelled as `websocketService.ts` and `useWebSocket.ts` are written:
- The server sends exactly the four kinds of its `MessageType` enum, and sends message text in full, with no truncation.
- The browser hook reconnects by itself after a close, up to its maximum number of attempts.

## Model

| member | source | states |
|---|---|---|
| SocialMediaService.ReachScore | server/services/socialMediaService.ts:17-26 | The reach score is in [100, 2900]. A platform missing from the lower-cased table gets 100. |
| SocialMediaService.ReachMultiplier | server/services/socialMediaService.ts:75-89 | The multiplier is in [0.5, 1.5] for every platform. An unknown platform gets 0.5, the multiplier of reach 100. |
| SocialMediaService.MultiplierForReach | server/services/socialMediaService.ts:82-86 | A reach of at least 100 maps to at least 0.5. The cap at 3000 keeps the multiplier at most 1.5. |
| SocialMediaService.BaseEngagement | server/services/socialMediaService.ts:34-52 | The weighted engagement, with absent counts read as 0, is never negative. |
| SocialMediaService.RecencyFactor | server/services/socialMediaService.ts:59-67 | The factor is at least 0.5 and at most 1 for a non-negative age. It is exactly 1 at age 0 and 0.5 from 30 days on. |
| SocialMediaService.EngagementScore | server/services/socialMediaService.ts:32-70 | Every engagement score is non-negative. |
| SocialMediaService.ScoreMonotone | server/services/socialMediaService.ts:47-67 | With platform and date fixed, raising any count strictly raises the score. |
| SocialMediaService.ScoreMonotoneInBase | server/services/socialMediaService.ts:47-67 | With platform and date fixed, the score is strictly increasing in the weighted engagement. |
| SocialMediaService.RecencyBounds | server/services/socialMediaService.ts:59-67 | A post dated no later than now keeps between half and all of its undated score. A post dated now scores like an undated one. |
| SocialMediaService.TotalReachAppend | server/services/socialMediaService.ts:119-130 | Total reach is additive over concatenation. |
| SocialMediaService.TopPostsSpec | server/services/socialMediaService.ts:105-115 | The ranked posts number min(limit, n) and are drawn from the input. They come in non-increasing score order, and no post that was cut scores above a kept one. |
| SocialMediaService.TopPostsStable | server/services/socialMediaService.ts:112-115 | For every score, the kept posts with that score are the first such posts of the input, in input order. |
| SocialMediaService.GetProductSocialMediaPosts | server/services/socialMediaService.ts:94-142 | The loop's tally and total reach equal the specification over all posts, not only the returned ones. The result has at most `limit` posts (default 10) and at most 5 platforms. |
| SocialMediaService.TrendingSpec | server/services/socialMediaService.ts:211-237 | Trending posts come from the input and are dated within 30 days (a missing date reads as the epoch). There are `limit` of them, or every recent post when fewer, highest score first. No recent post that was cut scores above a kept one. |
| SocialMediaService.ApplyEngagement | server/services/socialMediaService.ts:175-203 | Each supplied count replaces the stored one and each absent count is kept. `updatedAt` becomes now, and every other field is unchanged. |
| SocialMediaService.ApplyEngagementIdempotent | server/services/socialMediaService.ts:175-203 | Applying the same update twice equals applying it once. |
| SocialMediaService.UpdatePostEngagement | server/services/socialMediaService.ts:159-206 | An unknown id yields nothing and an unchanged table. A known id's post is updated and returned. Other rows and the key set are unchanged. |
| VideoService.ReachScore | server/services/videoService.ts:17-25 | The reach score is in [100, 2900]. A platform missing from the lower-cased table gets 100. |
| VideoService.ReachMultiplier | server/services/videoService.ts:102-116 | The multiplier is in [0.7, 1.3] for every platform. An unknown platform gets 0.7. |
| VideoService.MultiplierForReach | server/services/videoService.ts:109-113 | A reach of at least 100 maps to at least 0.7. The cap keeps the multiplier at most 1.3. |
| VideoService.BaseImpact | server/services/videoService.ts:40-54 | The weighted counts, with estimated defaults for absent likes, comments and shares, are never negative. |
| VideoService.DurationFactor | server/services/videoService.ts:58-70 | The factor is in [0.7, 1]. It is in [0.8, 1) under 3 minutes, in [0.7, 1) over 15 minutes, and exactly 1 in between. |
| VideoService.QualityFactor | server/services/videoService.ts:77-82 | A quality in (0, 5] gives a factor in (0.7, 1.3]. |
| VideoService.RecencyFactor | server/services/videoService.ts:84-94 | The factor is at least 0.6 and at most 1 for a non-negative age. It is exactly 1 at age 0 and 0.6 from 90 days on. |
| VideoService.ImpactFactors | server/services/videoService.ts:31-97 | The impact score is the weighted counts times the duration, platform, quality and recency terms, in that order. Absent adjustments contribute 1. |
| VideoService.ImpactNonNegative | server/services/videoService.ts:31-97 | Every impact score is non-negative. |
| VideoService.ImpactMonotoneInBase | server/services/videoService.ts:49-94 | With duration, platform, quality and date fixed, the score is strictly increasing in the weighted counts. |
| VideoService.MoreViewsMoreImpact | server/services/videoService.ts:40-54 | More views, all else equal, strictly raise the score, including when likes, comments or shares are estimated from views. |
| VideoService.EstimatesStandIn | server/services/videoService.ts:44-46 | A missing like, comment or share count scores exactly as if its estimate from the views had been stored. |
| VideoService.ExplicitZeroKept | server/services/videoService.ts:44 | `??` keeps a stored 0. With at least 34 views, 0 likes scores lower than a missing like count. |
| VideoService.RecencyBounds | server/services/videoService.ts:84-94 | A video published no later than now keeps between 60% and all of its undated score. |
| VideoService.TotalViewsAppend | server/services/videoService.ts:146-154 | Total views are additive over concatenation, and a single video counts its stored views (0 when missing). |
| VideoService.TopVideosSpec | server/services/videoService.ts:132-142 | The ranked videos number min(limit, n) and are drawn from the input. They come in non-increasing impact order, and no video that was cut scores above a kept one. |
| VideoService.TopVideosStable | server/services/videoService.ts:139-142 | For every score, the kept videos with that score are the first such videos of the input, in input order. |
| VideoService.GetProductVideoReviews | server/services/videoService.ts:121-166 | The loop's tally and total views equal the specification over all videos. The result has at most `limit` videos (default 5) and at most 3 platforms. |
| VideoService.MostImpactfulSpec | server/services/videoService.ts:171-193 | The result is nothing exactly when there are no videos. Otherwise it is an input video whose impact is at least every other's, and the first such in input order. |
| VideoService.TrendingSpec | server/services/videoService.ts:267-300 | Trending videos come from the input. Each has at least 1000 views (a missing count is 0) and is either undated or dated within 30 days. There are `limit` of them (default 10), or every candidate when fewer, highest impact first, and no candidate that was cut scores above a kept one. |
| VideoService.ApplyEngagement | server/services/videoService.ts:227-259 | Each supplied metric replaces the stored one and each absent metric is kept. `updatedAt` becomes now, and every other field is unchanged. |
| VideoService.ApplyEngagementIdempotent | server/services/videoService.ts:227-259 | Applying the same update twice equals applying it once. |
| VideoService.UpdateVideoEngagement | server/services/videoService.ts:210-262 | An unknown id yields nothing and an unchanged table. A known id's video is updated and returned. Other rows and the key set are unchanged. |
| Ranking.SortSpec | server/services/socialMediaService.ts:112 | The sort returns a permutation of its input in non-increasing key order. |
| Ranking.SortStable | server/services/socialMediaService.ts:112 | For every key, the elements with that key keep their input order. |
| Ranking.RankedIsPrefix | server/services/socialMediaService.ts:115 | `slice(0, limit)` of the sorted items is a prefix of length min(limit, n). |
| Ranking.RankedFromInput | server/services/socialMediaService.ts:112-115 | The kept elements are a sub-multiset of the input. |
| Ranking.RankedOrdered | server/services/socialMediaService.ts:112-115 | The kept elements are ordered, and each ranks at or ahead of every element that was cut. |
| Ranking.RankedStable | server/services/socialMediaService.ts:112-115 | For every key, the kept elements with that key are the first input elements with that key, in order. |
| Ranking.SortHead | server/services/videoService.ts:189-192 | The head of the sorted items is the first input element whose key is at least every key. |
| Ranking.TopByKey | server/storage.ts:189-208 | Ranking by a two-level key and cutting to a limit gives as many items as fit, drawn from the input, in order. No item that was cut ranks ahead of a kept one. |
| Ranking.TopByScore | server/storage.ts:76-81 | The same as TopByKey for a single score. |
| Ranking.TallyOfSpec | server/services/socialMediaService.ts:118-123 | The platform tally counts each platform exactly and lists platforms in order of first appearance. |
| Ranking.TallyEntries | server/services/socialMediaService.ts:133-134 | The entries name distinct platforms of the input, each with its exact count, and every input platform has one. |
| Ranking.TopPlatformsCounts | server/services/socialMediaService.ts:133-140 | `topPlatforms` has n entries, or one per distinct platform when fewer, each an input platform with its exact count, most frequent first. |
| Ranking.TopPlatformsDistinct | server/services/socialMediaService.ts:133-140 | `topPlatforms` names each platform at most once. |
| Ranking.TopPlatformsDominate | server/services/socialMediaService.ts:133-140 | No platform that `topPlatforms` leaves out occurs more often than one it keeps. |
| Common.DedupSpec | server/storage.ts:142 | `[...new Set(s)]` has no repeats and the same members as s. |
| Common.DedupPrefix | server/storage.ts:142 | Later elements never move earlier ones: first occurrences keep their order. |
| Common.AddSpec | server/services/websocketService.ts:31 | `Set.add` keeps members distinct and adds exactly x. It is a no-op when x is present, and existing members keep their order. |
| Common.RemoveSpec | server/services/websocketService.ts:42 | `Set.delete` keeps members distinct and removes exactly x. It is a no-op when x is absent. |
| Storage.Find | server/storage.ts:64-66 | A found product is stored under that id, and no result means no stored product has it. |
| Storage.FindStored | server/storage.ts:64-66 | With distinct ids, `get` of a stored product's id returns that product. |
| Storage.GetProductsSpec | server/storage.ts:68-72 | Results are stored products with requested ids, and every requested id that is stored appears. All found gives one per id; none found gives []. |
| Storage.GetProductsAppend | server/storage.ts:68-72 | Results keep the order of the ids: looking up `a + b` is looking up `a`, then `b`. One id gives its stored product, or nothing when it is unknown. |
| Storage.GetProductRetailers | server/storage.ts:167-169 | An unknown product gives [], and a known one gives its stored list. |
| Storage.GetProductReviews | server/storage.ts:172-174 | An unknown product gives [], and a known one gives its stored list. |
| Storage.GetProductVideoReview | server/storage.ts:177-179 | The result is nothing exactly for an unknown product, and otherwise its stored video. |
| Storage.FeaturedSpec | server/storage.ts:74-82 | There are min(limit, n) products (default 8), all stored, best rated first (a missing rating counts as 0). None that was cut is rated above a kept one. |
| Storage.SearchSpec | server/storage.ts:84-139 | Every product on the page is stored and passes every active filter. Every stored product passing them is a match, and `total` counts all matches. |
| Storage.SearchPage | server/storage.ts:151-156 | For positive page and size, the page is the matches from `(page-1)*size` on, as many as fit. |
| Storage.Offset | server/storage.ts:152-154 | The offset of a positive page and size is non-negative. |
| Storage.NoFiltersMatchAll | server/storage.ts:95-133 | Missing or empty filters impose nothing. |
| Storage.SearchFacets | server/storage.ts:141-149 | The brands are the distinct stored brands. Brands and price range are the same whatever the filters. |
| Storage.MinPrice | server/storage.ts:145-148 | An empty catalog gives +Infinity. Otherwise the result is a stored price no larger than any other. |
| Storage.MaxPrice | server/storage.ts:145-149 | An empty catalog gives -Infinity. Otherwise the result is a stored price no smaller than any other. |
| Storage.SimilarSpec | server/storage.ts:182-209 | An unknown id gives []. Otherwise there are `limit` results (default 5), or every candidate when fewer, each another stored product of the same category. |
| Storage.SimilarOrder | server/storage.ts:188-208 | Same-brand products come first. Within a group the price difference never decreases, and no candidate that was cut ranks ahead of a kept one. |
| Storage.CandidatesOfMatching | server/storage.ts:218-239 | Filtering out products that match nothing changes no suggestion. |
| Storage.GetSearchSuggestions | server/storage.ts:212-242 | A query shorter than 2 gives []. Otherwise the loop's set equals the first five distinct candidates, in order of first appearance. |
| Storage.SuggestionsSpec | server/storage.ts:212-242 | There are at most five distinct suggestions. Each is a matching product's name, or "brand category" of a product whose brand or category matches. |
| Notifications.TypeName | server/services/websocketService.ts:5-10 | Every message type has a non-empty wire name. |
| Notifications.Welcome | server/services/websocketService.ts:34-38 | The welcome is a system notification carrying a notice and the time. |
| Notifications.NewProductsMessage | server/services/websocketService.ts:81-87 | The message has type `NewProducts` and carries the products and `count = products.length`. |
| Notifications.CountMessagesSpec | server/services/websocketService.ts:92-109 | Each count message has its own type and the given count. Its text determines the count. |
| Notifications.DeliveriesSpec | server/services/websocketService.ts:57-64 | A broadcast sends only its message, reaches a client iff it is in the set and open, and reaches each such client exactly once. |
| Notifications.Network.Send | server/services/websocketService.ts:62 | `send` appends one delivery and changes no ready state. |
| Notifications.WebSocketService.SendToClient | server/services/websocketService.ts:72-76 | A message is sent iff the client is open. |
| Notifications.WebSocketService.OnConnection | server/services/websocketService.ts:29-38 | The client is added to the set, and it gets one welcome iff it is open. |
| Notifications.WebSocketService.OnClose | server/services/websocketService.ts:40-43 | The client is removed, and an absent client changes nothing. |
| Notifications.WebSocketService.OnError | server/services/websocketService.ts:45-48 | The client is removed, as on close. |
| Notifications.WebSocketService.Broadcast | server/services/websocketService.ts:57-67 | The sends are exactly the deliveries to the open members, in set order. The set itself is not touched. |
| Notifications.WebSocketService.BroadcastNewProducts | server/services/websocketService.ts:81-87 | The new-products message is broadcast. |
| Notifications.WebSocketService.BroadcastPriceUpdates | server/services/websocketService.ts:92-98 | The price-update count message is broadcast. |
| Notifications.WebSocketService.BroadcastAvailabilityUpdates | server/services/websocketService.ts:103-109 | The availability count message is broadcast. |
| WebSocketHookModel.MaxAttempts | client/src/hooks/useWebSocket.ts:38 | A missing maximum and a maximum of 0 both give 5. Any other value is kept. |
| WebSocketHookModel.AfterClosesSpec | client/src/hooks/useWebSocket.ts:61-71 | Any run of closes leaves the counter at most the maximum. With reconnection on it climbs to min(attempts + n, max); with it off it never moves. |
| WebSocketHookModel.WebSocketHook.constructor | client/src/hooks/useWebSocket.ts:30-39 | The hook starts disconnected, with no messages, no socket, no timer and 0 attempts. |
| WebSocketHookModel.WebSocketHook.Connect | client/src/hooks/useWebSocket.ts:41-93 | It is a no-op when the current socket is open. Otherwise the status is connecting and the socket is the new one, or the status is error when construction throws. |
| WebSocketHookModel.WebSocketHook.OnOpen | client/src/hooks/useWebSocket.ts:54-59 | The hook is connected and the attempts are reset to 0. |
| WebSocketHookModel.WebSocketHook.OnClose | client/src/hooks/useWebSocket.ts:61-71 | The hook is disconnected. The counter rises by one and a timer is set only when reconnecting and below the maximum. |
| WebSocketHookModel.WebSocketHook.OnError | client/src/hooks/useWebSocket.ts:73-76 | The status is error, and nothing else changes. |
| WebSocketHookModel.WebSocketHook.OnMessage | client/src/hooks/useWebSocket.ts:78-86 | A parsed message is appended; a parse failure changes nothing. |
| WebSocketHookModel.WebSocketHook.Disconnect | client/src/hooks/useWebSocket.ts:95-108 | The timer is cleared, the socket is closed and dropped, and the hook is disconnected. |
| ProductSearchHookModel.InitialSpec | client/src/hooks/use-product-search.ts:13-17 | Initial filters are the given ones, with page 1 and limit 20 where those are missing. |
| ProductSearchHookModel.UpdatedSpec | client/src/hooks/use-product-search.ts:24-30 | Every filter key is merged and the limit is kept unless given. The page is the given one or else 1. |
| ProductSearchHookModel.ResetSpec | client/src/hooks/use-product-search.ts:33-39 | Only page 1, the current limit and (if kept) the query remain. Resetting twice equals resetting once. |
| ProductSearchHookModel.PagingSpec | client/src/hooks/use-product-search.ts:42-63 | Paging changes only the page: next is one past the current page (1 when unset or 0) and previous is never below 1. Back after forward returns, and setting a page touches nothing else. |
| ProductSearchHookModel.CeilDivSpec | client/src/hooks/use-product-search.ts:66-68 | For a positive divisor, `Math.ceil(a/b)` is the fewest pages of b that hold a. |
| ProductSearchHookModel.PagePredicatesSpec | client/src/hooks/use-product-search.ts:66-72 | For any limit that is not negative, read as `limit || 20` (so 0 gives 20), there is a next page iff results lie beyond the current page. There is a previous page iff going back moves. |
| ProductSearchHookModel.ProductSearchHook.UpdateFilters | client/src/hooks/use-product-search.ts:24-30 | The held filters become the merged filters. |
| ProductSearchHookModel.ProductSearchHook.ResetFilters | client/src/hooks/use-product-search.ts:33-39 | The held filters become the reset filters. |
| ProductSearchHookModel.ProductSearchHook.SetPage | client/src/hooks/use-product-search.ts:42-47 | Only the page of the held filters changes. |
| ProductSearchHookModel.ProductSearchHook.NextPage | client/src/hooks/use-product-search.ts:50-55 | The held filters move one page forward. |
| ProductSearchHookModel.ProductSearchHook.PrevPage | client/src/hooks/use-product-search.ts:58-63 | The held filters move one page back, never below 1. |
| StarRating.Normalize | client/src/components/ui/star-rating.tsx:19 | The clamped rating is at most `maxRating`, non-negative when `maxRating` is, and unchanged when already in range. |
| StarRating.RoundHalfSpec | client/src/components/ui/star-rating.tsx:20 | The rounded rating is a multiple of 0.5 within 0.25 of the rating. |
| StarRating.RenderSpec | client/src/components/ui/star-rating.tsx:31-50 | There are `maxRating` slots. The first floor(rounded) are full, and the next is half iff rounded ends in .5. The label is the clamped, unrounded value. |
| VideoUrls.EmbedUrlSpec | server/api/videos.ts:20-31 | An unknown platform gives "". A known one gives its prefix followed by the id, so different ids give different URLs. Platform case does not matter. |
| VideoUrls.ExtractVideoIdSpec | server/api/videos.ts:36-66 | An empty URL or an unknown platform gives null. A YouTube id has 11 characters. A TikTok id is a non-empty digit run found in the URL, and there is one exactly when the pattern occurs somewhere in the URL. |
| VideoUrls.TikTokIdSpec | server/api/videos.ts:53-57 | Any TikTok match is a non-empty run of digits occurring in the URL. |
| VideoUrls.TikTokMatchAtSpec | server/api/videos.ts:55-57 | The pattern matches at position i with capture id iff the text from i is `/@`, a non-empty `[\w.-]` handle, `/video/`, then id as the whole digit run there. |
| VideoUrls.TikTokLeftmost | server/api/videos.ts:55-57 | `url.match` finds the pattern iff it occurs at some position, and then returns the capture at the leftmost such position. |
| VideoReviewCard.GetVideoUrlSpec | client/src/components/reviews/VideoReview.tsx:12-23 | An unknown platform links to the stored URL. A known platform links to a page ending in the id. Platform case does not matter. |
| VideoReviewCard.TikTokRoundTrip | client/src/components/reviews/VideoReview.tsx:18-19 | The id extractor (server/api/videos.ts:53-57) reads back the video id from the TikTok watch URL, for a valid handle and a digit id. |
| VideoReviewCard.Fixed1Spec | client/src/components/reviews/VideoReview.tsx:90-92 | `toFixed(1)` gives digits, a point and one digit. Without the point it reads back as the nearest number of tenths. |
| VideoReviewCard.FormatViewCountSpec | client/src/components/reviews/VideoReview.tsx:88-96 | The suffix is M iff the count is at least 1,000,000, and K iff it is in [1000, 1,000,000). Below 1000 the label reads back as the count. From 1,000,000 on, the label before the M is the count in millions rounded to tenths; in [1000, 1,000,000) the label before the K is the count in thousands rounded to tenths. |
| VideoReviewCard.ThousandsOverflow | client/src/components/reviews/VideoReview.tsx:91-92 | 999999 is labelled "1000.0K". |
| VideoReviewCard.FormatViewCountCorrectedSpec | client/src/components/reviews/VideoReview.tsx:88-96 | The corrected label agrees with the original wherever the thousands label stays below a thousand thousands. Counts that would round to that show in millions, at least "1.0M". |

## Left out

- Floating point:
  - Scores, factors and ratings are exact reals, not IEEE-754 doubles.
  - `Math.floor(viewCount * 0.03)` and the other estimates are exact integer divisions.
  - `toFixed(1)` is exact rounding to the nearer tenth (ties up).
  - `Math.round` is `floor(x + 0.5)`.
- Dates:
  - JavaScript `Date` and `setDate` are not modelled. The clock is the parameter `now`, and "30 days ago" is `now - 30 * 86400000`, ignoring daylight-saving and calendar effects.
  - A post with no `postedAt` is compared as the epoch (`new Date(null)`).
  - A `Date` object is truthy; a present date is `Some`.
- Text:
  - Lower-casing is ASCII only.
  - `Object.entries` puts integer-like keys first; the tally keeps plain insertion order.
  - Platform names are plain map keys. Names of `Object.prototype` members (`constructor`, `toString`, `__proto__`) are not modelled: in JavaScript they read inherited values from the reach table and the tally object.
- SocialMediaService.ReachScore, VideoService.ReachScore: the bounds hold for every platform name that is not an `Object.prototype` key; for such a key the lookup yields a function and the score is NaN.
- SocialMediaService.ReachMultiplier, VideoService.ReachMultiplier: the bounds hold only for platform names that are not `Object.prototype` keys, as for the reach score.
- Ranking.TallyOfSpec: the exact counts hold only for platform names that are not `Object.prototype` keys; in JavaScript `__proto__` is never tallied and `constructor` or `toString` start from a function and count as strings.
- The database (drizzle queries in the services and `DatabaseStorage`):
  - Reads are input sequences and updates act on a `map` from id to row.
  - `addSocialMediaPost` and `addVideoReview` are plain inserts and are not modelled.
- `MemStorage.initializeData`, the seed data and `productUpdater` are demo or random data; the catalog is a value passed in.
- Opaque outside code:
  - The `ws` library, the browser `WebSocket` and `setTimeout` are abstract: a socket is a handle, its `readyState` is a map or a parameter, and the timer is a flag.
  - A timer firing is a later call to `Connect`.
  - `JSON.stringify` and `JSON.parse` are abstract: a message stands for its string, and a parse outcome is a parameter.
  - `console.log` output and the hook's user callbacks (`onOpen`, `onClose`, `onError`, `onMessage`) are not modelled.
- WebSocketHookModel.Interval: the reconnect delay is computed (`|| 3000`) but its timing effect is not modelled.
- ProductSearchHookModel.Updated: a key given with the value `undefined` in `newFilters` erases the old key in JavaScript; the model treats it as absent and keeps the old value.
- ProductSearchHookModel.Initial: likewise, a key of `initialFilters` set to `undefined` (say `page: undefined`) erases the default page or limit in JavaScript; the model keeps the default.
- The YouTube and Vimeo regular expressions are not modelled. What they capture is the parameter `Captures`, and ExtractVideoIdSpec states only the 11-character check the code applies to it.
- VideoReviewCard.TikTokRoundTrip: stated only for channel names made of `[\w.-]` characters and all-digit ids. Other inputs fail the extractor's pattern.
- StarRating.RenderSpec: the label is the clamped value; its `toFixed(1)` text, the size classes and the markup are not modelled.
- HTTP routes, the client API wrapper and the React pages and components other than the star rating and the video card are not modelled.
- Sorting is modelled functionally; the in-place reordering of the local arrays is not.

## Findings

| source | as written | input that shows it | evidently intended | confidence | as-written member | corrected member |
|---|---|---|---|---|---|---|
| client/src/components/reviews/VideoReview.tsx:88-96 | Counts from 999950 to 999999 take the thousands branch, and `toFixed(1)` rounds them up to "1000.0K" | `formatViewCount(999999)` gives "1000.0K" | A count that rounds to a thousand thousands is shown in millions ("1.0M") | medium, not executed | VideoReviewCard.ThousandsOverflow | VideoReviewCard.FormatViewCountCorrectedSpec |
