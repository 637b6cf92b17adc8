/**
 * The leaves of the bingo predicates and the task catalog: tests of a history entry's
 * description and target, tests of the target's metadata looked up through the api, and
 * the fixed, ordered list of bingo tasks built from them.
 */
module BingoChecks {
  import opened Wrappers
  import opened Shikimori
  import opened BaseCheck
  import Utils

  /** The class that carries each product category. */
  function InfoClassOf(p: ProductType): InfoClass {
    match p
    case Anime => AnimeInfo
    case Manga => MangaInfo
    case Ranobe => RanobeInfo
  }

  /** `get_product_type`: the category of a target, by its class; any other class raises. */
  function GetProductType(t: Target): (r: Result<ProductType, Error>)
    ensures r.Ok? <==> t.cls != OtherInfo
    ensures r.Ok? ==> InfoClassOf(r.value) == t.cls
    ensures r.Err? ==> r.error == UnknownType
  {
    match t.cls
    case AnimeInfo => Ok(Anime)
    case MangaInfo => Ok(Manga)
    case RanobeInfo => Ok(Ranobe)
    case OtherInfo => Err(UnknownType)
  }

  /** `str.startswith`. */
  predicate StartsWith(s: string, prefix: string) {
    prefix <= s
  }

  /** Python's `part in s` on strings. */
  predicate Contains(s: string, part: string) {
    exists i :: 0 <= i <= |s| - |part| && part <= s[i..]
  }

  function Max(a: int, b: int): int {
    if a < b then b else a
  }

  // ---------------------------------------------------------------------------------------
  // Leaves over the history entry itself

  const Watched := "Просмотрено"
  const WatchedAndRated := "Просмотрено и оценено"
  const ReadDone := "Прочитано"
  const ReadAndRated := "Прочитано и оценено"
  const Watching := "Смотрю"

  /** The description says the title was watched (and perhaps rated). */
  predicate SaysWatched(description: string) {
    description == Watched || StartsWith(description, WatchedAndRated)
  }

  /** The description says the title was read (and perhaps rated). */
  predicate SaysRead(description: string) {
    description == ReadDone || StartsWith(description, ReadAndRated)
  }

  /** The lambda of `WatchedAnimeCheck`; it reads `h.target.url` only after the description matched. */
  function WatchedAnime(h: History): (r: Outcome)
    ensures r == Ok(true) <==> SaysWatched(h.description) && h.target.Some? && StartsWith(h.target.value.url, "/animes")
    ensures r.Err? <==> SaysWatched(h.description) && h.target.None?
    ensures r.Err? ==> r.error == MissingTarget
  {
    if !(h.description == Watched || StartsWith(h.description, WatchedAndRated)) then Ok(false)
    else match h.target
      case None => Err(MissingTarget)
      case Some(t) => Ok(StartsWith(t.url, "/animes"))
  }

  /** The lambda of `ReadMangaRanobeCheck`; it reads `h.target.url` only after the description matched. */
  function ReadMangaRanobe(h: History): (r: Outcome)
    ensures r == Ok(true) <==> SaysRead(h.description) && h.target.Some? &&
                               (StartsWith(h.target.value.url, "/mangas") || StartsWith(h.target.value.url, "/ranobe"))
    ensures r.Err? <==> SaysRead(h.description) && h.target.None?
    ensures r.Err? ==> r.error == MissingTarget
  {
    if !(h.description == ReadDone || StartsWith(h.description, ReadAndRated)) then Ok(false)
    else match h.target
      case None => Err(MissingTarget)
      case Some(t) => Ok(StartsWith(t.url, "/mangas") || StartsWith(t.url, "/ranobe"))
  }

  const WatchedAnimeCheck: Check := Func(WatchedAnime)
  const ReadMangaRanobeCheck: Check := Func(ReadMangaRanobe)

  /** No history entry both watches an anime and reads a manga or ranobe. */
  lemma WatchedAndReadExclusive(h: History, api: Api)
    ensures !(Eval(WatchedAnimeCheck, api, h) == Ok(true) && Eval(ReadMangaRanobeCheck, api, h) == Ok(true))
  {
    var d := h.description;
    assert SaysWatched(d) ==> Watched <= d by { assert Watched <= WatchedAndRated; }
    assert SaysRead(d) ==> ReadDone <= d by { assert ReadDone <= ReadAndRated; }
    assert Watched[3] != ReadDone[3];
  }

  /** A catalog lambda over `h.target`: it raises when the entry has no target. */
  function OnTarget(h: History, p: Target -> bool): (r: Outcome)
    ensures r.Err? <==> h.target.None?
    ensures r == Ok(true) <==> h.target.Some? && p(h.target.value)
  {
    match h.target
    case None => Err(MissingTarget)
    case Some(t) => Ok(p(t))
  }

  /** A catalog lambda over `h.target.aired_on.year`: it raises without a target or an airing date. */
  function OnAiredYear(h: History, p: int -> bool): (r: Outcome)
    ensures r.Err? <==> h.target.None? || h.target.value.airedYear.None?
    ensures r == Ok(true) <==> h.target.Some? && h.target.value.airedYear.Some? && p(h.target.value.airedYear.value)
  {
    match h.target
    case None => Err(MissingTarget)
    case Some(t) =>
      match t.airedYear
      case None => Err(MissingAiredDate)
      case Some(y) => Ok(p(y))
  }

  /** The lambda of the "start an ongoing anime" task. */
  function StartedOngoing(h: History): (r: Outcome)
    ensures r.Err? <==> h.target.None?
    ensures r == Ok(true) <==> h.target.Some? && h.target.value.status == "ongoing" &&
                               (h.description == Watching || Contains(h.description, "эпизод"))
  {
    OnTarget(h, (t: Target) => t.status == "ongoing" && (h.description == Watching || Contains(h.description, "эпизод")))
  }

  // ---------------------------------------------------------------------------------------
  // Leaves over product metadata

  /** `get_product_info` for a target: its category, then the api's record, which must exist. */
  function ProductInfo(api: Api, t: Target): (r: Result<ProductData, Error>)
    ensures r.Ok? <==> GetProductType(t).Ok? && api.info(GetProductType(t).value, t.id).Some?
    ensures r.Ok? ==> r.value == api.info(GetProductType(t).value, t.id).value
    ensures r.Err? ==> r.error == (if t.cls == OtherInfo then UnknownType else NoProductData)
  {
    match GetProductType(t)
    case Err(e) => Err(e)
    case Ok(p) =>
      match api.info(p, t.id)
      case None => Err(NoProductData)
      case Some(data) => Ok(data)
  }

  /** A constructor argument that is either one string or a list of strings. */
  datatype Names = One(name: string) | Many(names: seq<string>)

  /** The constructors of GenresCheck and AnimeAdaptationCheck turn a single string into a list. */
  function AsList(n: Names): seq<string> {
    match n
    case One(s) => [s]
    case Many(ss) => ss
  }

  /** `any([i in names for i in wanted])`. */
  function AnyIn(wanted: seq<string>, names: seq<string>): (b: bool)
    ensures b <==> exists i :: 0 <= i < |wanted| && wanted[i] in names
  {
    if wanted == [] then false else wanted[0] in names || AnyIn(wanted[1..], names)
  }

  /**
   * GenresCheck: false without a target; otherwise the product's genres are looked up and
   * the check holds iff one of the wanted genres is among them.  (The explicit test for an
   * empty genre list cannot change the result.)
   */
  function Genres(wanted: seq<string>, api: Api, h: History): (r: Outcome)
    ensures h.target.None? ==> r == Ok(false)
    ensures h.target.Some? ==> (r.Err? <==> ProductInfo(api, h.target.value).Err?)
    ensures r == Ok(true) <==> h.target.Some? && ProductInfo(api, h.target.value).Ok? &&
                               exists g :: g in wanted && g in ProductInfo(api, h.target.value).value.genres
    ensures h.target.Some? && r.Err? ==> r.error == ProductInfo(api, h.target.value).error
  {
    match h.target
    case None => Ok(false)
    case Some(t) =>
      match ProductInfo(api, t)
      case Err(e) => Err(e)
      case Ok(data) => if |data.genres| == 0 then Ok(false) else Ok(AnyIn(wanted, data.genres))
  }

  function GenresCheck(genres: Names): Check {
    Leaf((api, h) => Genres(AsList(genres), api, h))
  }

  /** PlannedMoreCompletedCheck: more users plan the title (counter 0) than completed it (counter 1). */
  function PlannedMoreCompleted(api: Api, h: History): (r: Outcome)
    ensures h.target.None? ==> r == Ok(false)
    ensures r == Ok(true) <==> h.target.Some? && ProductInfo(api, h.target.value).Ok? &&
                               var stats := ProductInfo(api, h.target.value).value.ratesStatusesStats;
                               |stats| >= 2 && stats[0] > stats[1]
    ensures r == Err(MissingStats) <==> h.target.Some? && ProductInfo(api, h.target.value).Ok? &&
                                        |ProductInfo(api, h.target.value).value.ratesStatusesStats| < 2
    ensures h.target.Some? ==> (r.Err? <==> ProductInfo(api, h.target.value).Err? ||
                                            |ProductInfo(api, h.target.value).value.ratesStatusesStats| < 2)
    ensures h.target.Some? && ProductInfo(api, h.target.value).Err? ==> r.Err? && r.error == ProductInfo(api, h.target.value).error
  {
    match h.target
    case None => Ok(false)
    case Some(t) =>
      match ProductInfo(api, t)
      case Err(e) => Err(e)
      case Ok(data) =>
        var stats := data.ratesStatusesStats;
        if |stats| < 2 then Err(MissingStats) else Ok(stats[0] > stats[1])
  }

  const PlannedMoreCompletedCheck: Check := Leaf(PlannedMoreCompleted)

  /** CompletedLessNUsersCheck: fewer than `n` users completed the title (counter 1). */
  function CompletedLessNUsers(n: int, api: Api, h: History): (r: Outcome)
    ensures h.target.None? ==> r == Ok(false)
    ensures r == Ok(true) <==> h.target.Some? && ProductInfo(api, h.target.value).Ok? &&
                               var stats := ProductInfo(api, h.target.value).value.ratesStatusesStats;
                               |stats| >= 2 && stats[1] < n
    ensures r == Err(MissingStats) <==> h.target.Some? && ProductInfo(api, h.target.value).Ok? &&
                                        |ProductInfo(api, h.target.value).value.ratesStatusesStats| < 2
    ensures h.target.Some? ==> (r.Err? <==> ProductInfo(api, h.target.value).Err? ||
                                            |ProductInfo(api, h.target.value).value.ratesStatusesStats| < 2)
    ensures h.target.Some? && ProductInfo(api, h.target.value).Err? ==> r.Err? && r.error == ProductInfo(api, h.target.value).error
  {
    match h.target
    case None => Ok(false)
    case Some(t) =>
      match ProductInfo(api, t)
      case Err(e) => Err(e)
      case Ok(data) =>
        var stats := data.ratesStatusesStats;
        if |stats| < 2 then Err(MissingStats) else Ok(stats[1] < n)
  }

  function CompletedLessNUsersCheck(n: int): Check {
    Leaf((api, h) => CompletedLessNUsers(n, api, h))
  }

  /** `sum(...)` of a list of counters. */
  function Sum(xs: seq<int>): int {
    if xs == [] then 0 else xs[0] + Sum(xs[1..])
  }

  /** AddListLessNUsersCheck: fewer than `n` users have the title in their list, in any status. */
  function AddListLessNUsers(n: int, api: Api, h: History): (r: Outcome)
    ensures h.target.None? ==> r == Ok(false)
    ensures h.target.Some? ==> (r.Err? <==> ProductInfo(api, h.target.value).Err?)
    ensures r == Ok(true) <==> h.target.Some? && ProductInfo(api, h.target.value).Ok? &&
                               Sum(ProductInfo(api, h.target.value).value.ratesStatusesStats) < n
    ensures h.target.Some? && r.Err? ==> r.error == ProductInfo(api, h.target.value).error
  {
    match h.target
    case None => Ok(false)
    case Some(t) =>
      match ProductInfo(api, t)
      case Err(e) => Err(e)
      case Ok(data) => Ok(Sum(data.ratesStatusesStats) < n)
  }

  function AddListLessNUsersCheck(n: int): Check {
    Leaf((api, h) => AddListLessNUsers(n, api, h))
  }

  /** StudiosNumMoreNCheck: an anime made by more than `n` studios; false for other categories. */
  function StudiosNumMoreN(n: int, api: Api, h: History): (r: Outcome)
    ensures h.target.None? ==> r == Ok(false)
    ensures h.target.Some? && GetProductType(h.target.value).Ok? && GetProductType(h.target.value).value != Anime ==> r == Ok(false)
    ensures r == Ok(true) <==> h.target.Some? && h.target.value.cls == AnimeInfo &&
                               api.info(Anime, h.target.value.id).Some? && |api.info(Anime, h.target.value.id).value.studios| > n
    ensures h.target.Some? ==> (r.Err? <==> h.target.value.cls == OtherInfo ||
                                            (h.target.value.cls == AnimeInfo && api.info(Anime, h.target.value.id).None?))
    ensures r.Err? ==> r.error == (if h.target.value.cls == OtherInfo then UnknownType else NoProductData)
  {
    match h.target
    case None => Ok(false)
    case Some(t) =>
      match GetProductType(t)
      case Err(e) => Err(e)
      case Ok(p) =>
        if p != Anime then Ok(false)
        else match ProductInfo(api, t)
          case Err(e) => Err(e)
          case Ok(data) => Ok(|data.studios| > n)
  }

  function StudiosNumMoreNCheck(n: int): Check {
    Leaf((api, h) => StudiosNumMoreN(n, api, h))
  }

  /** The relation is an adaptation of a manga of one of the given kinds. */
  predicate IsAdaptationOf(rel: Relation, kinds: seq<string>) {
    rel.relation == "Adaptation" && rel.manga.Some? && rel.manga.value.kind in kinds
  }

  predicate HasAdaptation(rels: seq<Relation>, kinds: seq<string>) {
    exists i :: 0 <= i < |rels| && IsAdaptationOf(rels[i], kinds)
  }

  /** AnimeAdaptationCheck: an anime adapted from a manga of one of the given kinds; false for other categories. */
  function AnimeAdaptation(kinds: seq<string>, api: Api, h: History): (r: Outcome)
    ensures h.target.None? ==> r == Ok(false)
    ensures h.target.Some? && GetProductType(h.target.value).Ok? && GetProductType(h.target.value).value != Anime ==> r == Ok(false)
    ensures r == Ok(true) <==> h.target.Some? && h.target.value.cls == AnimeInfo &&
                               api.related(Anime, h.target.value.id).Some? &&
                               HasAdaptation(api.related(Anime, h.target.value.id).value, kinds)
    ensures h.target.Some? ==> (r.Err? <==> h.target.value.cls == OtherInfo ||
                                            (h.target.value.cls == AnimeInfo && api.related(Anime, h.target.value.id).None?))
    ensures r.Err? ==> r.error == (if h.target.value.cls == OtherInfo then UnknownType else NoRelatedData)
  {
    match h.target
    case None => Ok(false)
    case Some(t) =>
      match GetProductType(t)
      case Err(e) => Err(e)
      case Ok(p) =>
        if p != Anime then Ok(false)
        else match api.related(p, t.id)
          case None => Err(NoRelatedData)
          case Some(rels) => Ok(HasAdaptation(rels, kinds))
  }

  /** AnimeAdaptationCheck's `check`: the loop over the related works, returning at the first adaptation. */
  method EvaluateAnimeAdaptation(kinds: seq<string>, api: Api, h: History) returns (r: Outcome)
    ensures r == AnimeAdaptation(kinds, api, h)
  {
    if h.target.None? {
      return Ok(false);
    }
    var t := h.target.value;
    var p := GetProductType(t);
    if p.Err? {
      return Err(p.error);
    }
    if p.value != Anime {
      return Ok(false);
    }
    var related := api.related(p.value, t.id);
    if related.None? {
      return Err(NoRelatedData);
    }
    var rels := related.value;
    var i := 0;
    while i < |rels|
      invariant 0 <= i <= |rels|
      invariant forall j :: 0 <= j < i ==> !IsAdaptationOf(rels[j], kinds)
    {
      var rel := rels[i];
      if rel.relation == "Adaptation" && rel.manga.Some? && rel.manga.value.kind in kinds {
        return Ok(true);
      }
      i := i + 1;
    }
    return Ok(false);
  }

  function AnimeAdaptationCheck(kind: Names): Check {
    Leaf((api, h) => AnimeAdaptation(AsList(kind), api, h))
  }

  /** Every metadata leaf is false on an entry without a target, whatever the api would say. */
  lemma MetadataLeavesNeedTarget(h: History, api: Api, names: Names, n: int)
    requires h.target.None?
    ensures Eval(GenresCheck(names), api, h) == Ok(false)
    ensures Eval(PlannedMoreCompletedCheck, api, h) == Ok(false)
    ensures Eval(CompletedLessNUsersCheck(n), api, h) == Ok(false)
    ensures Eval(AddListLessNUsersCheck(n), api, h) == Ok(false)
    ensures Eval(StudiosNumMoreNCheck(n), api, h) == Ok(false)
    ensures Eval(AnimeAdaptationCheck(names), api, h) == Ok(false)
  {
  }

  // ---------------------------------------------------------------------------------------
  // The catalog

  /** A bingo task; `weight` is in tenths (the source's 1, 0.5, 0.3, 0.2 and 0.1). */
  datatype BingoTask = BingoTask(description: string, check: Check, weight: nat, products: seq<ProductType>)

  /**
   * `BINGO_TASKS`: position `i` (from 0) is the task with id `i + 1`.  The list is written
   * as two displays joined, tasks 1-25 and tasks 26-49.
   */
  const BingoTasks: seq<BingoTask> := [
      BingoTask("Посмотри любое аниме.", WatchedAnimeCheck, 10, [Anime]),
      BingoTask("Прочитай любую мангу / ранобэ.", ReadMangaRanobeCheck, 10, [Manga, Ranobe]),
      BingoTask("Посмотри фильм.", Conj([WatchedAnimeCheck, Func((h: History) => OnTarget(h, (t: Target) => t.kind == "movie"))]), 5, [Anime]),
      BingoTask("Посмотри OVA / ONA.", Conj([WatchedAnimeCheck, Func((h: History) => OnTarget(h, (t: Target) => t.kind in ["ova", "ona"]))]), 5, [Anime]),
      BingoTask("Посмотри аниме, основанное на манге.", Conj([WatchedAnimeCheck, AnimeAdaptationCheck(One("manga"))]), 5, [Anime]),
      BingoTask("Посмотри аниме с оценкой 8 и выше.", Conj([WatchedAnimeCheck, Func((h: History) => OnTarget(h, (t: Target) => t.score >= 8.0))]), 5, [Anime]),
      BingoTask("Прочитай мангу / ранобэ с оценкой 8 и выше.", Conj([ReadMangaRanobeCheck, Func((h: History) => OnTarget(h, (t: Target) => t.score >= 8.0))]), 5, [Manga, Ranobe]),
      BingoTask("Посмотри аниме с оценкой 6 и ниже.", Conj([WatchedAnimeCheck, Func((h: History) => OnTarget(h, (t: Target) => t.score <= 6.0))]), 5, [Anime]),
      BingoTask("Прочитай мангу / ранобэ с оценкой 6 и ниже.", Conj([ReadMangaRanobeCheck, Func((h: History) => OnTarget(h, (t: Target) => t.score <= 6.0))]), 3, [Manga, Ranobe]),
      BingoTask("Посмотри аниме, которое началось в 80-ых и раньше.", Conj([WatchedAnimeCheck, Func((h: History) => OnAiredYear(h, (y: int) => y < 1990))]), 1, [Anime]),
      BingoTask("Прочитай мангу / ранобэ, которое началось в 80-ых и раньше.", Conj([ReadMangaRanobeCheck, Func((h: History) => OnAiredYear(h, (y: int) => y < 1990))]), 1, [Manga, Ranobe]),
      BingoTask("Посмотри аниме, которое началось в 90-ых.", Conj([WatchedAnimeCheck, Func((h: History) => OnAiredYear(h, (y: int) => 1990 <= y < 2000))]), 1, [Anime]),
      BingoTask("Прочитай мангу / ранобэ, которое началось в 90-ых.", Conj([ReadMangaRanobeCheck, Func((h: History) => OnAiredYear(h, (y: int) => 1990 <= y < 2000))]), 1, [Manga, Ranobe]),
      BingoTask("Посмотри аниме, которое началось в 00-ых.", Conj([WatchedAnimeCheck, Func((h: History) => OnAiredYear(h, (y: int) => 2000 <= y < 2010))]), 2, [Anime]),
      BingoTask("Прочитай мангу / ранобэ, которое началось в 00-ых.", Conj([ReadMangaRanobeCheck, Func((h: History) => OnAiredYear(h, (y: int) => 2000 <= y < 2010))]), 2, [Manga, Ranobe]),
      BingoTask("Посмотри аниме, которое началось в 10-ых.", Conj([WatchedAnimeCheck, Func((h: History) => OnAiredYear(h, (y: int) => 2010 <= y < 2020))]), 3, [Anime]),
      BingoTask("Прочитай мангу / ранобэ, которое началось в 10-ых.", Conj([ReadMangaRanobeCheck, Func((h: History) => OnAiredYear(h, (y: int) => 2010 <= y < 2020))]), 3, [Manga, Ranobe]),
      BingoTask("Посмотри аниме, которое началось в 20-ых.", Conj([WatchedAnimeCheck, Func((h: History) => OnAiredYear(h, (y: int) => 2020 <= y < 2030))]), 3, [Anime]),
      BingoTask("Прочитай мангу / ранобэ, которое началось в 20-ых.", Conj([ReadMangaRanobeCheck, Func((h: History) => OnAiredYear(h, (y: int) => 2020 <= y < 2030))]), 3, [Manga, Ranobe]),
      BingoTask("Посмотри аниме в жанре комедия.", Conj([WatchedAnimeCheck, GenresCheck(One("Комедия"))]), 5, [Anime]),
      BingoTask("Прочитай мангу / ранобэ в жанре комедия.", Conj([ReadMangaRanobeCheck, GenresCheck(One("Комедия"))]), 5, [Manga, Ranobe]),
      BingoTask("Посмотри аниме в жанре драма / романтика.", Conj([WatchedAnimeCheck, GenresCheck(Many(["Драма", "Романтика"]))]), 5, [Anime]),
      BingoTask("Прочитай мангу / ранобэ в жанре драма / романтика.", Conj([ReadMangaRanobeCheck, GenresCheck(Many(["Драма", "Романтика"]))]), 5, [Manga, Ranobe]),
      BingoTask("Посмотри аниме про повседневность / кулинарию.", Conj([WatchedAnimeCheck, GenresCheck(Many(["Повседневность", "Гурман"]))]), 5, [Anime]),
      BingoTask("Прочитай мангу / ранобэ про повседневность / кулинарию.", Conj([ReadMangaRanobeCheck, GenresCheck(Many(["Повседневность", "Гурман"]))]), 5, [Manga, Ranobe])
    ] + [
      BingoTask("Посмотри аниме в жанре ужасы / триллер.", Conj([WatchedAnimeCheck, GenresCheck(Many(["Ужасы", "Триллер"]))]), 5, [Anime]),
      BingoTask("Прочитай мангу / ранобэ в жанре ужасы / триллер.", Conj([ReadMangaRanobeCheck, GenresCheck(Many(["Ужасы", "Триллер"]))]), 5, [Manga, Ranobe]),
      BingoTask("Посмотри аниме в жанре сверхъестественное / фэнтези / фантастика.", Conj([WatchedAnimeCheck, GenresCheck(Many(["Сверхъестественное", "Фэнтези", "Фантастика"]))]), 5, [Anime]),
      BingoTask("Прочитай мангу / ранобэ в жанре сверхъестественное / фэнтези / фантастика.", Conj([ReadMangaRanobeCheck, GenresCheck(Many(["Сверхъестественное", "Фэнтези", "Фантастика"]))]), 5, [Manga, Ranobe]),
      BingoTask("Посмотри аниме в жанре тайна.", Conj([WatchedAnimeCheck, GenresCheck(Many(["Тайна"]))]), 5, [Anime]),
      BingoTask("Прочитай мангу / ранобэ в жанре тайна.", Conj([ReadMangaRanobeCheck, GenresCheck(Many(["Тайна"]))]), 5, [Manga, Ranobe]),
      BingoTask("Посмотри аниме про спорт.", Conj([WatchedAnimeCheck, GenresCheck(Many(["Спорт"]))]), 5, [Anime]),
      BingoTask("Прочитай мангу / ранобэ про спорт.", Conj([ReadMangaRanobeCheck, GenresCheck(Many(["Спорт"]))]), 5, [Manga, Ranobe]),
      BingoTask("Посмотри аниме в жанре экшен / приключения.", Conj([WatchedAnimeCheck, GenresCheck(Many(["Экшен", "Приключения"]))]), 5, [Anime]),
      BingoTask("Прочитай мангу / ранобэ в жанре экшен / приключения.", Conj([ReadMangaRanobeCheck, GenresCheck(Many(["Экшен", "Приключения"]))]), 5, [Manga, Ranobe]),
      BingoTask("Посмотри аниме в жанре авангард.", Conj([WatchedAnimeCheck, GenresCheck(Many(["Авангард"]))]), 5, [Anime]),
      BingoTask("Прочитай мангу / ранобэ в жанре авангард.", Conj([ReadMangaRanobeCheck, GenresCheck(Many(["Авангард"]))]), 5, [Manga, Ranobe]),
      BingoTask("Посмотри аниме с цифрой в названии.", Conj([WatchedAnimeCheck, Func((h: History) => OnTarget(h, (t: Target) => Utils.HasDigit(t.russian)))]), 3, [Anime]),
      BingoTask("Прочитай мангу / ранобэ с цифрой в названии.", Conj([ReadMangaRanobeCheck, Func((h: History) => OnTarget(h, (t: Target) => Utils.HasDigit(t.russian)))]), 3, [Manga, Ranobe]),
      BingoTask("Посмотри аниме, в котором меньше 30 серий.", Conj([WatchedAnimeCheck, Func((h: History) => OnTarget(h, (t: Target) => Max(t.episodes, t.episodesAired) < 30))]), 5, [Anime]),
      BingoTask("Посмотри аниме, в котором 30 серий и больше.", Conj([WatchedAnimeCheck, Func((h: History) => OnTarget(h, (t: Target) => Max(t.episodes, t.episodesAired) >= 30))]), 5, [Anime]),
      BingoTask("Посмотри аниме от нескольких студий.", Conj([WatchedAnimeCheck, StudiosNumMoreNCheck(1)]), 3, [Anime]),
      BingoTask("Начни смотреть аниме в онгоинге.", Func(StartedOngoing), 3, [Anime]),
      BingoTask("Посмотри аниме, которое больше в запланированом, чем просмотреном.", Conj([WatchedAnimeCheck, PlannedMoreCompletedCheck]), 5, [Anime]),
      BingoTask("Прочитай мангу / ранобэ, которое больше в запланированом, чем прочитаном.", Conj([ReadMangaRanobeCheck, PlannedMoreCompletedCheck]), 5, [Manga, Ranobe]),
      BingoTask("Посмотри аниме, которое посмотрело меньше 10000 пользователей.", Conj([WatchedAnimeCheck, CompletedLessNUsersCheck(10000)]), 5, [Anime]),
      BingoTask("Прочитай мангу / ранобэ, которое прочитало меньше 1000 пользователей.", Conj([ReadMangaRanobeCheck, CompletedLessNUsersCheck(1000)]), 5, [Manga, Ranobe]),
      BingoTask("Посмотри аниме, которое добавили в список меньше 50000 пользователей.", Conj([WatchedAnimeCheck, AddListLessNUsersCheck(50000)]), 5, [Anime]),
      BingoTask("Прочитай мангу / ранобэ, которое добавили в список меньше 10000 пользователей.", Conj([ReadMangaRanobeCheck, AddListLessNUsersCheck(10000)]), 5, [Manga, Ranobe])
    ]

  /** The catalog's size, the positivity of its weights and its two product groups. */
  lemma CatalogSize()
    ensures |BingoTasks| == 49
  {
  }

  lemma CatalogWeights()
    ensures forall i :: 0 <= i < |BingoTasks| ==> BingoTasks[i].weight > 0
  {
  }

  lemma CatalogProducts()
    ensures forall i :: 0 <= i < |BingoTasks| ==> BingoTasks[i].products == [Anime] || BingoTasks[i].products == [Manga, Ranobe]
  {
  }
}
