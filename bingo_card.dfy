/**
 * Bingo card generation and the completion count of src/bingo/__main__.py.
 *
 * A card maps the decimal spelling of a 1-based catalog position to the
 * completion record of that task, None while the task is open.
 */
module BingoCard {
  import opened Wrappers
  import opened Shikimori
  import opened BingoChecks
  import Utils

  type Card = map<string, Option<string>>

  /** The ValueErrors numpy.random.choice raises for an unusable draw. */
  datatype DrawError =
    | EmptyPopulation            // no task matches: the probabilities cannot sum to 1
    | SampleLargerThanPopulation // size > population with replace=False
    | NegativeSize               // size < 0

  /** Some requested product type is among the task's products. */
  predicate Relevant(task: BingoTask, types: seq<ProductType>) {
    exists t :: t in types && t in task.products
  }

  /** 1-based positions (numbered from `start`) of the tasks relevant to `types`, in catalog order. */
  function Filtered(tasks: seq<BingoTask>, start: nat, types: seq<ProductType>): (ids: seq<nat>)
    ensures forall n :: n in ids <==> start <= n < start + |tasks| && Relevant(tasks[n - start], types)
    ensures forall i, j :: 0 <= i < j < |ids| ==> ids[i] < ids[j]
    ensures forall i :: 0 <= i < |ids| ==> start <= ids[i]
    ensures |types| == 0 ==> ids == []
  {
    if tasks == [] then []
    else
      var rest := Filtered(tasks[1..], start + 1, types);
      if Relevant(tasks[0], types) then [start] + rest else rest
  }

  /** The keys of `filtered_bingo_tasks`. */
  function FilteredIds(types: seq<ProductType>): (ids: seq<nat>)
    ensures forall n :: n in ids <==> 1 <= n <= |BingoTasks| && Relevant(BingoTasks[n - 1], types)
    ensures forall i, j :: 0 <= i < j < |ids| ==> ids[i] < ids[j]
    ensures |types| == 0 ==> ids == []
  {
    Filtered(BingoTasks, 1, types)
  }

  /**
   * The first two tasks cover anime and manga/ranobe, so the filtered set
   * is empty only when no product type is requested at all.
   */
  lemma EmptyPopulationIffNoTypes(types: seq<ProductType>)
    ensures |FilteredIds(types)| == 0 <==> |types| == 0
  {
    var ids := FilteredIds(types);
    if |types| > 0 {
      assert BingoTasks[0].products == [Anime] && BingoTasks[1].products == [Manga, Ranobe];
      if types[0] == Anime {
        assert types[0] in types && types[0] in BingoTasks[0].products;
        assert Relevant(BingoTasks[0], types);
        assert 1 in ids;
      } else {
        assert types[0] in types && types[0] in BingoTasks[1].products;
        assert Relevant(BingoTasks[1], types);
        assert 2 in ids;
      }
    }
  }

  /** A sequence without repetitions has as many distinct elements as positions. */
  lemma {:induction false} DistinctCard<T>(s: seq<T>)
    requires forall i, j :: 0 <= i < j < |s| ==> s[i] != s[j]
    ensures |set x | x in s| == |s|
  {
    if s != [] {
      var rest := s[1..];
      DistinctCard(rest);
      var tail := set x | x in rest;
      assert (set x | x in s) == tail + {s[0]} by {
        assert s == [s[0]] + rest;
      }
      assert s[0] !in tail by {
        forall k | 0 <= k < |rest| ensures rest[k] != s[0] {
          assert rest[k] == s[k + 1];
        }
      }
    }
  }

  /** The keys str(n) for the drawn positions n. */
  function Keys(drawn: set<nat>): set<string> {
    set n | n in drawn :: Utils.NatToString(n)
  }

  /** str is injective on positions, so a set of positions and its keys have the same size. */
  lemma {:induction false} KeysCard(drawn: set<nat>)
    ensures |Keys(drawn)| == |drawn|
    decreases |drawn|
  {
    if drawn != {} {
      var n :| n in drawn;
      var rest := drawn - {n};
      KeysCard(rest);
      assert Keys(drawn) == Keys(rest) + {Utils.NatToString(n)};
      assert Utils.NatToString(n) !in Keys(rest) by {
        forall m | m in rest ensures Utils.NatToString(m) != Utils.NatToString(n) {
          assert Utils.DigitsValue(Utils.NatToString(m)) == m;
        }
      }
    }
  }

  /**
   * generate_bingo_card: filter the catalog by product type, then draw
   * `size` distinct positions from the filtered ones; each becomes an
   * open slot.  The weighted draw is a nondeterministic choice.
   */
  method GenerateBingoCard(size: int, types: seq<ProductType>) returns (r: Result<Card, DrawError>)
    ensures r == Err(EmptyPopulation) <==> |FilteredIds(types)| == 0
    ensures r == Err(SampleLargerThanPopulation) <==> 0 < |FilteredIds(types)| < size
    ensures r == Err(NegativeSize) <==> 0 < |FilteredIds(types)| && size < 0
    ensures r.Ok? ==> |r.value| == size
    ensures r.Ok? ==> forall k :: k in r.value ==> r.value[k] == None
    ensures r.Ok? ==> forall k :: k in r.value ==> exists n :: n in FilteredIds(types) && k == Utils.NatToString(n)
  {
    var ids := FilteredIds(types);
    r := Draw(ids, size);
  }

  /** numpy.random.choice(ids, size, replace=False) turned into a card of open slots. */
  method Draw(ids: seq<nat>, size: int) returns (r: Result<Card, DrawError>)
    requires forall i, j :: 0 <= i < j < |ids| ==> ids[i] < ids[j]
    ensures r == Err(EmptyPopulation) <==> |ids| == 0
    ensures r == Err(SampleLargerThanPopulation) <==> 0 < |ids| < size
    ensures r == Err(NegativeSize) <==> 0 < |ids| && size < 0
    ensures r.Ok? ==> |r.value| == size
    ensures r.Ok? ==> forall k :: k in r.value ==> r.value[k] == None
    ensures r.Ok? ==> forall k :: k in r.value ==> exists n :: n in ids && k == Utils.NatToString(n)
  {
    if |ids| == 0 {
      return Err(EmptyPopulation);
    }
    if size > |ids| {
      return Err(SampleLargerThanPopulation);
    }
    if size < 0 {
      return Err(NegativeSize);
    }
    var population := set n | n in ids;
    DistinctCard(ids);
    SubsetOfSize(population, size);
    var drawn :| drawn <= population && |drawn| == size;
    var card: Card := map n | n in drawn :: Utils.NatToString(n) := None;
    KeysCard(drawn);
    assert card.Keys == Keys(drawn);
    return Ok(card);
  }

  /** A finite set has a subset of every size up to its own. */
  lemma {:induction false} SubsetOfSize(population: set<nat>, size: nat)
    requires size <= |population|
    ensures exists drawn :: drawn <= population && |drawn| == size
    decreases size
  {
    if size == 0 {
      var none: set<nat> := {};
      assert none <= population && |none| == 0;
    } else {
      SubsetOfSize(population, size - 1);
      var smaller :| smaller <= population && |smaller| == size - 1;
      assert population == smaller + (population - smaller);
      var n :| n in population - smaller;
      assert smaller + {n} <= population && |smaller + {n}| == size;
    }
  }

  // ---------------------------------------------------------------------------------------
  // count_completed_tasks

  /** The keys of the slots that hold a completion record. */
  function Completed(stats: Card): set<string> {
    set k | k in stats && stats[k].Some?
  }

  /** count_completed_tasks: the number of values that are not None. */
  method CountCompletedTasks(stats: Card) returns (count: nat)
    ensures count == |Completed(stats)|
  {
    count := 0;
    var todo := stats.Keys;
    ghost var done: set<string> := {};
    while todo != {}
      invariant todo !! done && todo + done == stats.Keys
      invariant count == |set k | k in done && stats[k].Some?|
      decreases |todo|
    {
      var k :| k in todo;
      ghost var before := set j | j in done && stats[j].Some?;
      if stats[k] != None {
        count := count + 1;
        assert (set j | j in done + {k} && stats[j].Some?) == before + {k};
      } else {
        assert (set j | j in done + {k} && stats[j].Some?) == before;
      }
      done := done + {k};
      todo := todo - {k};
    }
    assert done == stats.Keys;
  }

  /** The count is at most the number of slots. */
  lemma CompletedAtMostSlots(stats: Card)
    ensures |Completed(stats)| <= |stats|
  {
    SubsetCard(Completed(stats), stats.Keys);
  }

  /** A freshly generated card has nothing completed. */
  lemma FreshCardNothingCompleted(card: Card)
    requires forall k :: k in card ==> card[k] == None
    ensures |Completed(card)| == 0
  {
    assert Completed(card) == {};
  }

  /** Every slot is completed exactly when the count reaches the number of slots. */
  lemma AllCompletedIff(stats: Card)
    ensures |Completed(stats)| == |stats| <==> forall k :: k in stats ==> stats[k].Some?
  {
    if exists k :: k in stats && stats[k] == None {
      var k :| k in stats && stats[k] == None;
      SubsetCard(Completed(stats), stats.Keys - {k});
    } else {
      assert Completed(stats) == stats.Keys;
    }
  }

  lemma {:induction false} SubsetCard<T>(a: set<T>, b: set<T>)
    requires a <= b
    ensures |a| <= |b|
    decreases |b|
  {
    if b != {} {
      var x :| x in b;
      SubsetCard(a - {x}, b - {x});
      if x in a {
        assert a == (a - {x}) + {x};
      } else {
        assert a == a - {x};
      }
    }
  }
}
