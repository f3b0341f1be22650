/** The records the core reads. A nullable or optional column is an `Option`;
    counts are natural numbers, timestamps are milliseconds since the epoch,
    prices, ratings and quality scores are exact reals. */
module Schema {
  import opened Common

  datatype Product = Product(
    id: int,
    name: string,
    description: string,
    category: string,
    brand: string,
    price: real,
    rating: Option<real>,
    inStock: bool)

  datatype ProductRetailer = ProductRetailer(
    id: int,
    productId: int,
    retailerName: string,
    price: real,
    availability: Option<string>,
    url: string)

  datatype Review = Review(
    id: int,
    productId: int,
    source: string,
    rating: real,
    maxRating: real,
    content: string)

  /** A video review, with the engagement columns the video service reads
      besides the ones the product schema declares. */
  datatype VideoReview = VideoReview(
    id: int,
    productId: int,
    platform: string,
    videoId: string,
    title: string,
    channelName: string,
    url: string,
    viewCount: Option<nat>,
    likeCount: Option<nat>,
    commentCount: Option<nat>,
    shareCount: Option<nat>,
    channelSubscriberCount: Option<nat>,
    duration: Option<int>,        // seconds
    videoQuality: Option<real>,   // 0 to 5
    publishedAt: Option<int>,
    updatedAt: Option<int>)

  datatype SocialMediaPost = SocialMediaPost(
    id: int,
    productId: int,
    platform: string,
    author: string,
    content: string,
    likes: Option<nat>,
    comments: Option<nat>,
    shares: Option<nat>,
    views: Option<nat>,
    saves: Option<nat>,
    postedAt: Option<int>,
    updatedAt: Option<int>)

  /** Search parameters; every key may be absent (`Partial<ProductSearch>`). */
  datatype ProductSearch = ProductSearch(
    query: Option<string>,
    category: Option<string>,
    minPrice: Option<real>,
    maxPrice: Option<real>,
    rating: Option<real>,
    brand: Option<string>,
    inStock: Option<bool>,
    page: Option<int>,
    limit: Option<int>)

  const NoFilters: ProductSearch := ProductSearch(None, None, None, None, None, None, None, None, None)
}
