/** Product records as the search backend returns them and as both the
    search tool and the pipeline rebuild them with `result.get(key, default)`. */
module Products {
  import opened Options

  /** A rating as the code uses it: a number that is only compared (with 0 and
      with other ratings), and the text Python's f-string rendering of that
      number produces. The number is kept as an integer that orders and signs
      the ratings as the floats do; any finite set of floats has such an
      encoding with 0 for 0, so comparisons come out as in Python. */
  datatype Rating = Rating(value: int, shown: string)

  /** One entry of the backend's `organic_results`; a field is None when the
      key is absent. */
  datatype RawResult = RawResult(
    title: Option<string>,
    brand: Option<string>,
    price: Option<string>,
    rating: Option<Rating>,
    reviews: Option<int>,
    link: Option<string>,
    thumbnail: Option<string>,
    isPrime: Option<bool>)

  /** The body of a search response: `organic_results`, when the key is present. */
  datatype SearchBody = SearchBody(organicResults: Option<seq<RawResult>>)

  /** One HTTP search call: a requests.RequestException (connection failure,
      timeout, status >= 400 from raise_for_status), any other exception, or
      the decoded body. */
  datatype Fetch =
    | RequestFailed(reason: string)
    | OtherFailure(reason: string)
    | Fetched(body: SearchBody)

  const NoPrice := "Price not available"
  const ZeroRating := Rating(0, "0")

  /** A record with every field defaulted as the source does it. */
  datatype Product = Product(
    title: string,
    brand: string,
    price: string,
    rating: Rating,
    reviews: int,
    link: string,
    thumbnail: string,
    isPrime: bool)

  /** The record with every absent field replaced by the source's default
      and every present field kept. */
  function FromRaw(r: RawResult): (p: Product)
    ensures r.title.None? ==> p.title == ""
    ensures r.brand.None? ==> p.brand == ""
    ensures r.price.None? ==> p.price == NoPrice
    ensures r.rating.None? ==> p.rating.value == 0
    ensures r.reviews.None? ==> p.reviews == 0
    ensures r.link.None? ==> p.link == ""
    ensures r.thumbnail.None? ==> p.thumbnail == ""
    ensures r.isPrime.None? ==> !p.isPrime
    ensures r.title.Some? ==> p.title == r.title.value
    ensures r.brand.Some? ==> p.brand == r.brand.value
    ensures r.price.Some? ==> p.price == r.price.value
    ensures r.rating.Some? ==> p.rating == r.rating.value
    ensures r.reviews.Some? ==> p.reviews == r.reviews.value
    ensures r.link.Some? ==> p.link == r.link.value
    ensures r.thumbnail.Some? ==> p.thumbnail == r.thumbnail.value
    ensures r.isPrime.Some? ==> p.isPrime == r.isPrime.value
  {
    Product(
      r.title.GetOr(""),
      r.brand.GetOr(""),
      r.price.GetOr(NoPrice),
      r.rating.GetOr(ZeroRating),
      r.reviews.GetOr(0),
      r.link.GetOr(""),
      r.thumbnail.GetOr(""),
      r.isPrime.GetOr(false))
  }

  /** The relevance filter both components apply: a positive rating and at
      least one review. */
  predicate Rated(p: Product) {
    p.rating.value > 0 && p.reviews > 0
  }
}
