/**
 * The score summing and the rank banding of src/fetchers/user_fetcher.py.
 * The floating-point activity score is an input here: only its banding
 * into a rank and its conversion to a percentage are modelled.
 */
module UserFetcher {

  // ---------------------------------------------------------------------------------------
  // Weights of the activity score

  const AnimeMangaWeight: nat := 2
  const ScoreWeight: nat := 1
  const ContentWeight: nat := 3
  const EditsWeight: nat := 3
  const CommentsWeight: nat := 1

  /** TOTAL_WEIGHT, the divisor that turns the weighted sum into an average. */
  function TotalWeight(): (w: nat)
    ensures w == 10
  {
    AnimeMangaWeight + ScoreWeight + ContentWeight + EditsWeight + CommentsWeight
  }

  // ---------------------------------------------------------------------------------------
  // get_score_count

  /** One bucket entry of the user's score statistics: a score name and how many titles got it. */
  datatype ScoreEntry = ScoreEntry(name: string, value: int)

  /** The score statistics: per product kind, a list of buckets. */
  type Scores = map<string, seq<ScoreEntry>>

  /** The sum of the `value` fields of one list. */
  function ListTotal(entries: seq<ScoreEntry>): int {
    if entries == [] then 0 else ListTotal(entries[..|entries| - 1]) + entries[|entries| - 1].value
  }

  lemma ListTotalPrefix(entries: seq<ScoreEntry>, i: nat)
    requires i < |entries|
    ensures ListTotal(entries[..i + 1]) == ListTotal(entries[..i]) + entries[i].value
  {
    assert entries[..i + 1][..i] == entries[..i];
  }

  /** The sum of every `value` field of every list, taking the lists in some order. */
  ghost function Total(scores: Scores): int
    decreases |scores|
  {
    if scores == map[] then 0
    else
      var k :| k in scores;
      ListTotal(scores[k]) + Total(scores - {k})
  }

  /** The order the lists are taken in does not change the total. */
  lemma {:induction false} TotalAnyKey(scores: Scores, k: string)
    requires k in scores
    ensures Total(scores) == ListTotal(scores[k]) + Total(scores - {k})
    decreases |scores|
  {
    var j :| j in scores && Total(scores) == ListTotal(scores[j]) + Total(scores - {j});
    if j != k {
      var both := scores - {j} - {k};
      TotalAnyKey(scores - {j}, k);
      TotalAnyKey(scores - {k}, j);
      assert (scores - {j}) - {k} == both;
      assert (scores - {k}) - {j} == both;
      assert (scores - {k})[j] == scores[j];
      assert (scores - {j})[k] == scores[k];
    }
  }

  /** Taking one more list out of the remaining ones. */
  lemma TotalStep(scores: Scores, done: set<string>, k: string)
    requires k in scores && k !in done
    ensures Total(scores - done) == ListTotal(scores[k]) + Total(scores - (done + {k}))
  {
    TotalAnyKey(scores - done, k);
    assert (scores - done) - {k} == scores - (done + {k});
  }

  lemma TotalEmpty()
    ensures Total(map[]) == 0
  {
  }

  /** get_score_count: two nested loops adding up every `value`. */
  method GetScoreCount(scores: Scores) returns (s: int)
    ensures s == Total(scores)
  {
    s := 0;
    var todo := scores.Keys;
    ghost var done: set<string> := {};
    assert scores - done == scores;
    while todo != {}
      invariant todo !! done && todo + done == scores.Keys
      invariant s + Total(scores - done) == Total(scores)
      decreases |todo|
    {
      var k :| k in todo;
      var entries := scores[k];
      ghost var s0 := s;
      var i := 0;
      while i < |entries|
        invariant 0 <= i <= |entries|
        invariant s == s0 + ListTotal(entries[..i])
      {
        ListTotalPrefix(entries, i);
        s := s + entries[i].value;
        i := i + 1;
      }
      assert entries[..i] == entries;
      TotalStep(scores, done, k);
      done := done + {k};
      todo := todo - {k};
    }
    assert scores - done == map[];
  }

  // ---------------------------------------------------------------------------------------
  // calculate_rank

  /** The ranks from best to worst. */
  const Ranks: seq<string> := ["S+", "S", "A++", "A+", "A", "B+", "B"]

  /** The upper bounds of the first six bands, in increasing order. */
  const Bounds: seq<real> := [0.1, 0.25, 0.4, 0.55, 0.7, 0.8]

  /** The if/elif chain of calculate_rank. */
  function Rank(score: real): (rank: string)
    ensures rank in Ranks
  {
    if score <= 0.1 then "S+"
    else if score <= 0.25 then "S"
    else if score <= 0.4 then "A++"
    else if score <= 0.55 then "A+"
    else if score <= 0.7 then "A"
    else if score <= 0.8 then "B+"
    else "B"
  }

  /** How many of the bounds the score exceeds. */
  function CountExceeded(bounds: seq<real>, score: real): (n: nat)
    ensures n <= |bounds|
  {
    if bounds == [] then 0
    else (if score > bounds[0] then 1 else 0) + CountExceeded(bounds[1..], score)
  }

  /** The position of a rank, 0 for the best. */
  function RankIndex(rank: string): (i: nat)
    requires rank in Ranks
    ensures i < |Ranks| && Ranks[i] == rank
  {
    if rank == "S+" then 0
    else if rank == "S" then 1
    else if rank == "A++" then 2
    else if rank == "A+" then 3
    else if rank == "A" then 4
    else if rank == "B+" then 5
    else 6
  }

  /** The chain picks the band whose position is the number of bounds the score exceeds. */
  lemma RankByBands(score: real)
    ensures RankIndex(Rank(score)) == CountExceeded(Bounds, score)
    ensures Rank(score) == Ranks[CountExceeded(Bounds, score)]
  {
    var b5: seq<real> := [0.8];
    var b4: seq<real> := [0.7, 0.8];
    var b3: seq<real> := [0.55, 0.7, 0.8];
    var b2: seq<real> := [0.4, 0.55, 0.7, 0.8];
    var b1: seq<real> := [0.25, 0.4, 0.55, 0.7, 0.8];
    assert b5[1..] == [] && b4[1..] == b5 && b3[1..] == b4 && b2[1..] == b3 && b1[1..] == b2 && Bounds[1..] == b1;
    var c5 := CountExceeded(b5, score);
    assert c5 == if score > 0.8 then 1 else 0;
    var c4 := CountExceeded(b4, score);
    assert c4 == (if score > 0.7 then 1 else 0) + c5;
    var c3 := CountExceeded(b3, score);
    assert c3 == (if score > 0.55 then 1 else 0) + c4;
    var c2 := CountExceeded(b2, score);
    assert c2 == (if score > 0.4 then 1 else 0) + c3;
    var c1 := CountExceeded(b1, score);
    assert c1 == (if score > 0.25 then 1 else 0) + c2;
    assert CountExceeded(Bounds, score) == (if score > 0.1 then 1 else 0) + c1;
  }

  /** A larger score exceeds at least as many bounds. */
  lemma {:induction false} CountExceededMonotone(bounds: seq<real>, low: real, high: real)
    requires low <= high
    ensures CountExceeded(bounds, low) <= CountExceeded(bounds, high)
  {
    if bounds != [] {
      CountExceededMonotone(bounds[1..], low, high);
    }
  }

  /** A lower score never yields a worse rank. */
  lemma RankMonotone(low: real, high: real)
    requires low <= high
    ensures RankIndex(Rank(low)) <= RankIndex(Rank(high))
  {
    RankByBands(low);
    RankByBands(high);
    CountExceededMonotone(Bounds, low, high);
  }

  /** int(x): truncation toward zero. */
  function Truncate(x: real): (n: int)
    ensures x >= 0.0 ==> n as real <= x < n as real + 1.0
    ensures x < 0.0 ==> n as real - 1.0 < x <= n as real
  {
    if x >= 0.0 then x.Floor else -((-x).Floor)
  }

  /** The denominator `am_count or 1`: never zero. */
  function TitleCount(amCount: int): (d: int)
    ensures d != 0
    ensures amCount != 0 ==> d == amCount
  {
    if amCount == 0 then 1 else amCount
  }

  /** scores_count / (am_count or 1): defined for every count, and exact whenever am_count != 0. */
  function ScoresPerTitle(scoresCount: int, amCount: int): (r: real)
    ensures amCount != 0 ==> r * amCount as real == scoresCount as real
    ensures amCount == 0 ==> r == scoresCount as real
  {
    scoresCount as real / TitleCount(amCount) as real
  }

  /** calculate_rank given the already computed score: the rank and int(score * 100). */
  function CalculateRank(score: real): (r: (string, int))
    ensures r.0 == Ranks[CountExceeded(Bounds, score)]
    ensures score >= 0.0 ==> r.1 as real <= score * 100.0 < r.1 as real + 1.0
  {
    RankByBands(score);
    (Rank(score), Truncate(score * 100.0))
  }
}
