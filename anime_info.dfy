/**
 * `get_anime_info`: shaping the answers of the anime metadata service into
 * the dictionary the search page renders.
 *
 * The three HTTP requests are not modelled: the search response (status and
 * decoded `data` list) and the decoded bodies of the reviews and
 * recommendations requests for the found anime are inputs. `random.sample`
 * is modelled by the positions it picks (`chosen`), which are distinct and as
 * many as `min(6, len(all_reviews))`.
 */
module AnimeInfo {
  import opened Basics

  const ReviewLimit: nat := 6
  const RecommendationLimit: nat := 6
  /** Review texts are cut to this many characters ... */
  const ReviewCut: nat := 350
  /** ... but get an ellipsis only when longer than this many. */
  const EllipsisThreshold: nat := 500

  /* ---------------- The decoded JSON ---------------- */

  datatype Genre = Genre(name: string)

  /** The `trailer` object; its `url` may be absent. */
  datatype Trailer = Trailer(url: Option<string>)

  /**
   * An entry of the search result's `data` list. Keys read with `.get` are
   * optional; keys read by indexing are always present.
   */
  datatype Anime = Anime(
    malId: int,
    title: Option<string>,
    synopsis: Option<string>,
    score: Option<real>,
    genres: Option<seq<Genre>>,
    largeImageUrl: string,
    url: string,
    trailer: Option<Trailer>)

  datatype SearchResponse = SearchResponse(statusCode: int, data: seq<Anime>)

  /** An entry of the reviews body: `user.username`, `score`, `review`. */
  datatype Review = Review(username: string, score: int, text: string)

  /** An entry of the recommendations body: the fields of its `entry` object. */
  datatype Recommendation = Recommendation(title: string, imageUrl: string, malId: int)

  /* ---------------- The result ---------------- */

  datatype ReviewCard = ReviewCard(user: string, score: int, review: string)

  datatype SimilarAnime = SimilarAnime(title: string, imageUrl: string, malId: int)

  datatype Info = Info(
    title: Option<string>,
    synopsis: Option<string>,
    rating: Option<real>,
    genres: seq<string>,
    poster: string,
    malUrl: string,
    trailerUrl: Option<string>,
    reviews: seq<ReviewCard>,
    similar: seq<SimilarAnime>)

  /** `body.get("data", [])`. */
  function DataOrEmpty<T>(body: Option<seq<T>>): seq<T>
  {
    if body.Some? then body.value else []
  }

  /* ---------------- Shaping ---------------- */

  /**
   * `review[:350] + ("..." if len(review) > 500 else "")`: a text of at most
   * 350 characters is kept whole, a text of 351 to 500 characters is cut to
   * 350 with no mark that it was cut, and a longer text is cut to 350 and
   * gets "...".
   */
  function Truncate(text: string): (r: string)
    ensures |text| <= ReviewCut ==> r == text
    ensures ReviewCut < |text| <= EllipsisThreshold ==> r == text[..ReviewCut]
    ensures EllipsisThreshold < |text| ==> r == text[..ReviewCut] + "..."
  {
    text[..Min(ReviewCut, |text|)] + (if |text| > EllipsisThreshold then "..." else "")
  }

  /** A shaped review is never longer than 353 characters and always starts like the original. */
  lemma TruncateBounds(text: string)
    ensures |Truncate(text)| <= ReviewCut + 3
    ensures |Truncate(text)| == Min(ReviewCut, |text|) + (if |text| > EllipsisThreshold then 3 else 0)
    ensures Truncate(text)[..Min(ReviewCut, |text|)] == text[..Min(ReviewCut, |text|)]
  {
  }

  /**
   * A review of 351 to 500 characters is shown exactly as its first 350
   * characters would be: the cut leaves no mark.
   */
  lemma CutWithoutMark(text: string)
    requires ReviewCut < |text| <= EllipsisThreshold
    ensures Truncate(text) == Truncate(text[..ReviewCut])
    ensures Truncate(text) != text
  {
    assert |Truncate(text)| != |text|;
  }

  /** The positions `random.sample(population, k)` may pick from `available` items: `k` distinct ones. */
  predicate IsSample(chosen: seq<nat>, available: nat, k: nat)
  {
    && |chosen| == k
    && (forall i :: 0 <= i < |chosen| ==> chosen[i] < available)
    && (forall i, j :: 0 <= i < j < |chosen| ==> chosen[i] != chosen[j])
  }

  function ShapeReview(review: Review): ReviewCard
  {
    ReviewCard(review.username, review.score, Truncate(review.text))
  }

  /** `review_list`: one card per sampled review, in sampling order. */
  function ReviewList(all: seq<Review>, chosen: seq<nat>): (r: seq<ReviewCard>)
    requires IsSample(chosen, |all|, Min(ReviewLimit, |all|))
    ensures |r| == Min(ReviewLimit, |all|)
    ensures forall i :: 0 <= i < |r| ==> r[i] == ShapeReview(all[chosen[i]])
  {
    seq(|chosen|, i requires 0 <= i < |chosen| => ShapeReview(all[chosen[i]]))
  }

  /** `similar_anime`: the first six recommendations (at most), in order. */
  function SimilarList(recommendations: seq<Recommendation>): (r: seq<SimilarAnime>)
    ensures |r| == Min(RecommendationLimit, |recommendations|)
    ensures forall i :: 0 <= i < |r| ==>
      r[i] == SimilarAnime(recommendations[i].title, recommendations[i].imageUrl, recommendations[i].malId)
  {
    var recData := recommendations[..Min(RecommendationLimit, |recommendations|)];
    seq(|recData|, i requires 0 <= i < |recData| =>
      SimilarAnime(recData[i].title, recData[i].imageUrl, recData[i].malId))
  }

  /** `[genre['name'] for genre in anime.get('genres', [])]`. */
  function GenreNames(anime: Anime): (r: seq<string>)
    ensures |r| == |DataOrEmpty(anime.genres)|
    ensures forall i :: 0 <= i < |r| ==> r[i] == DataOrEmpty(anime.genres)[i].name
  {
    var genres := DataOrEmpty(anime.genres);
    seq(|genres|, i requires 0 <= i < |genres| => genres[i].name)
  }

  /** `anime.get('trailer', {}).get('url')`. */
  function TrailerUrl(anime: Anime): Option<string>
  {
    if anime.trailer.Some? then anime.trailer.value.url else None
  }

  /**
   * `get_anime_info`: `None` exactly when the search did not answer 200 or
   * found nothing; otherwise the first search hit, shaped.
   */
  function GetAnimeInfo(search: SearchResponse, reviewsBody: Option<seq<Review>>,
                        recommendationsBody: Option<seq<Recommendation>>, chosen: seq<nat>): (r: Option<Info>)
    requires IsSample(chosen, |DataOrEmpty(reviewsBody)|, Min(ReviewLimit, |DataOrEmpty(reviewsBody)|))
    ensures r.None? <==> search.statusCode != 200 || search.data == []
    ensures r.Some? ==>
      var anime := search.data[0];
      var all := DataOrEmpty(reviewsBody);
      var recs := DataOrEmpty(recommendationsBody);
      && r.value.title == anime.title
      && r.value.synopsis == anime.synopsis
      && r.value.rating == anime.score
      && r.value.poster == anime.largeImageUrl
      && r.value.malUrl == anime.url
      && r.value.trailerUrl == TrailerUrl(anime)
      && |r.value.genres| == |DataOrEmpty(anime.genres)|
      && (forall i :: 0 <= i < |r.value.genres| ==> r.value.genres[i] == DataOrEmpty(anime.genres)[i].name)
      && |r.value.reviews| == Min(ReviewLimit, |all|)
      && (forall i :: 0 <= i < |r.value.reviews| ==> r.value.reviews[i] == ShapeReview(all[chosen[i]]))
      && |r.value.similar| == Min(RecommendationLimit, |recs|)
      && (forall i :: 0 <= i < |r.value.similar| ==> r.value.similar[i] == SimilarAnime(recs[i].title, recs[i].imageUrl, recs[i].malId))
  {
    if search.statusCode != 200 then None
    else if search.data == [] then None
    else
      var anime := search.data[0];
      Some(Info(
        anime.title,
        anime.synopsis,
        anime.score,
        GenreNames(anime),
        anime.largeImageUrl,
        anime.url,
        TrailerUrl(anime),
        ReviewList(DataOrEmpty(reviewsBody), chosen),
        SimilarList(DataOrEmpty(recommendationsBody))))
  }
}
