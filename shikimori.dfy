/**
 * The data the bingo engine reads from the Shikimori site: history entries, their targets,
 * the product metadata behind a target, and the metadata source itself.  These are the
 * records of the `shikithon` client library, reduced to the fields the engine looks at.
 */
module Shikimori {
  import opened Wrappers

  /** The product categories of the bingo package (`ProductType` is "anime", "manga" or "ranobe"). */
  datatype ProductType = Anime | Manga | Ranobe {
    function Name(): string {
      match this
      case Anime => "anime"
      case Manga => "manga"
      case Ranobe => "ranobe"
    }
  }

  /** The runtime class of a history target; `OtherInfo` stands for any other object. */
  datatype InfoClass = AnimeInfo | MangaInfo | RanobeInfo | OtherInfo

  /** The product a history entry points at, as embedded in the entry. */
  datatype Target = Target(
    cls: InfoClass,
    id: int,
    url: string,
    kind: string,
    score: real,
    airedYear: Option<int>,  // `aired_on.year`; None when `aired_on` is None
    russian: string,
    episodes: int,
    episodesAired: int,
    status: string)

  /** One entry of a user's activity history. */
  datatype History = History(id: int, description: string, target: Option<Target>)

  /** Product metadata: Russian genre names, the rate status counters and the studios. */
  datatype ProductData = ProductData(genres: seq<string>, ratesStatusesStats: seq<int>, studios: seq<string>)

  datatype MangaRef = MangaRef(kind: string)

  /** One related work of a product. */
  datatype Relation = Relation(relation: string, manga: Option<MangaRef>)

  /**
   * The metadata source behind `ShikimoriAPI` and its cache: product information and related
   * works, keyed by product type and id.  `None` is what the client returns for a missing product.
   */
  datatype Api = Api(
    info: (ProductType, int) -> Option<ProductData>,
    related: (ProductType, int) -> Option<seq<Relation>>)

  /** The exceptions a check can raise. */
  datatype Error =
    | UnknownType       // `get_product_type` on an object of another class
    | MissingTarget     // attribute access on a `None` target
    | MissingAiredDate  // `.year` of a `None` `aired_on`
    | NoProductData     // `get_product_info` got `None`
    | NoRelatedData     // iterating a `None` list of related works
    | MissingStats      // `rates_statuses_stats[1]` out of range

  /** What evaluating a check gives: a truth value, or the exception it raised. */
  type Outcome = Result<bool, Error>
}
