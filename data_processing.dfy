/**
 * The `DataProcessor` pipeline: load the rating table, keep the users with
 * enough ratings, scale the ratings, index users and anime, split into train
 * and test arrays and write the artifacts, stopping at the first stage that
 * raises.
 *
 * Spark and joblib are not modelled: what they produce or whether they raise
 * is an input (`Externals`). The table is a value; the processor is a class
 * whose fields the stage methods overwrite, as the source does.
 */
module DataProcessing {
  import opened Basics

  /* ---------------- Stages and their exception ---------------- */

  datatype Stage = Load | Filter | Scale | Encode | Split | Save

  /** The order in which `run` invokes the stages. */
  const Pipeline: seq<Stage> := [Load, Filter, Scale, Encode, Split, Save]

  /** Every stage wraps whatever it hits in a CustomException naming that stage. */
  datatype CustomException = CustomException(stage: Stage)
  {
    /** The message the stage gives its exception, which `run` logs. */
    function Message(): string
    {
      match stage
      case Load => "Failed to load data"
      case Filter => "Failed to Filter user data"
      case Scale => "Failed to standardize the ratings"
      case Encode => "Failed to encode data"
      case Split => "Failed to split data"
      case Save => "Failed to save artifacts"
    }
  }

  /** The logged message tells which stage failed. */
  lemma MessagesDistinct(e: CustomException, f: CustomException)
    ensures e.Message() == f.Message() <==> e == f
  {
    if e.stage != f.stage {
      assert |e.Message()| != |f.Message()|;
    }
  }

  /** The prefixes of the pipeline, one per stage at which `run` can stop. */
  lemma PipelinePrefixes()
    ensures Pipeline[..1] == [Load] && Pipeline[..2] == [Load, Filter]
    ensures Pipeline[..3] == [Load, Filter, Scale] && Pipeline[..4] == [Load, Filter, Scale, Encode]
    ensures Pipeline[..5] == [Load, Filter, Scale, Encode, Split] && Pipeline[..6] == Pipeline
  {
  }

  /** The trace after each stage of `run`, spelled out stage by stage. */
  lemma TracePrefixes(t: seq<Stage>)
    ensures t + [Load] + [Filter] == t + [Load, Filter]
    ensures t + [Load] + [Filter] + [Scale] == t + [Load, Filter, Scale]
    ensures t + [Load] + [Filter] + [Scale] + [Encode] == t + [Load, Filter, Scale, Encode]
    ensures t + [Load] + [Filter] + [Scale] + [Encode] + [Split] == t + [Load, Filter, Scale, Encode, Split]
    ensures t + [Load] + [Filter] + [Scale] + [Encode] + [Split] + [Save] == t + Pipeline
  {
  }

  /* ---------------- The rating table ---------------- */

  /** A CSV row after `select('user_id', 'anime_id', 'rating')`. */
  datatype Interaction = Interaction(userId: int, animeId: int, rating: int)

  /** A table row; the derived columns are absent until their stage adds them. */
  datatype Row = Row(
    userId: int, animeId: int, rating: int,
    count: Option<nat>, scaledRating: Option<real>, user: Option<nat>, anime: Option<nat>)

  /**
   * A table: its rows, and which derived columns (`count`, `scaled_rating`,
   * `user`, `anime`) its schema holds. `user_id`, `anime_id` and `rating`
   * are always there, since loading selects them.
   */
  datatype Table = Table(rows: seq<Row>, hasCount: bool, hasScaledRating: bool, hasUser: bool, hasAnime: bool)

  /** Every row holds exactly the derived columns the table's schema lists. */
  ghost predicate WellFormed(t: Table)
  {
    forall r | r in t.rows ::
      && r.count.Some? == t.hasCount
      && r.scaledRating.Some? == t.hasScaledRating
      && r.user.Some? == t.hasUser
      && r.anime.Some? == t.hasAnime
  }

  /** The table `load_data` selects: one row per CSV row, in order, none of the derived columns yet. */
  function Loaded(csv: seq<Interaction>): (t: Table)
    ensures WellFormed(t) && |t.rows| == |csv|
    ensures !t.hasCount && !t.hasScaledRating && !t.hasUser && !t.hasAnime
    ensures forall i :: 0 <= i < |csv| ==>
      && t.rows[i].userId == csv[i].userId && t.rows[i].animeId == csv[i].animeId && t.rows[i].rating == csv[i].rating
      && t.rows[i].count.None? && t.rows[i].scaledRating.None? && t.rows[i].user.None? && t.rows[i].anime.None?
  {
    Table(seq(|csv|, i requires 0 <= i < |csv| =>
      Row(csv[i].userId, csv[i].animeId, csv[i].rating, None, None, None, None)), false, false, false, false)
  }

  /* ---------------- filter_users ---------------- */

  /** The `count` that `groupby('user_id').count()` gives user `u`. */
  function UserCount(rows: seq<Row>, u: int): nat
  {
    if rows == [] then 0 else (if rows[0].userId == u then 1 else 0) + UserCount(rows[1..], u)
  }

  /** A row after the inner join: unchanged but for the user's count. */
  function Counted(r: Row, all: seq<Row>): Row
  {
    r.(count := Some(UserCount(all, r.userId)))
  }

  function KeepFrequent(pending: seq<Row>, all: seq<Row>, minRating: int): seq<Row>
  {
    if pending == [] then []
    else
      var last := |pending| - 1;
      KeepFrequent(pending[..last], all, minRating)
      + (if UserCount(all, pending[last].userId) >= minRating then [Counted(pending[last], all)] else [])
  }

  /** The rows of users with at least `minRating` rows, joined with their count. */
  function FilterFrequent(rows: seq<Row>, minRating: int): seq<Row>
  {
    KeepFrequent(rows, rows, minRating)
  }

  function FilterStep(t: Table, minRating: int): Table
  {
    t.(rows := FilterFrequent(t.rows, minRating), hasCount := true)
  }

  /**
   * The positions of `pending` whose user has at least `minRating` rows in
   * `all`, in increasing order.
   */
  ghost function KeptPositions(pending: seq<Row>, all: seq<Row>, minRating: int): seq<nat>
  {
    if pending == [] then []
    else
      var last := |pending| - 1;
      KeptPositions(pending[..last], all, minRating)
      + (if UserCount(all, pending[last].userId) >= minRating then [last] else [])
  }

  lemma {:induction false} KeptIncreasing(pending: seq<Row>, all: seq<Row>, minRating: int)
    ensures forall k :: 0 <= k < |KeptPositions(pending, all, minRating)| ==>
      KeptPositions(pending, all, minRating)[k] < |pending|
    ensures forall k, l :: 0 <= k < l < |KeptPositions(pending, all, minRating)| ==>
      KeptPositions(pending, all, minRating)[k] < KeptPositions(pending, all, minRating)[l]
  {
    if pending != [] {
      var last := |pending| - 1;
      var prev := KeptPositions(pending[..last], all, minRating);
      KeptIncreasing(pending[..last], all, minRating);
      var kept := KeptPositions(pending, all, minRating);
      assert kept == prev + (if UserCount(all, pending[last].userId) >= minRating then [last] else []);
      assert forall k :: 0 <= k < |prev| ==> kept[k] == prev[k] < last;
      assert forall k :: |prev| <= k < |kept| ==> kept[k] == last;
    }
  }

  lemma {:induction false} KeptExactly(pending: seq<Row>, all: seq<Row>, minRating: int, i: nat)
    requires i < |pending|
    ensures i in KeptPositions(pending, all, minRating) <==> UserCount(all, pending[i].userId) >= minRating
  {
    var last := |pending| - 1;
    var init := pending[..last];
    KeptIncreasing(init, all, minRating);
    if i < last {
      KeptExactly(init, all, minRating, i);
      assert init[i] == pending[i];
    }
  }

  lemma {:induction false} KeepFrequentAt(pending: seq<Row>, all: seq<Row>, minRating: int)
    ensures var kept, r := KeptPositions(pending, all, minRating), KeepFrequent(pending, all, minRating);
      && |r| == |kept|
      && forall k :: 0 <= k < |kept| ==> kept[k] < |pending| && r[k] == Counted(pending[kept[k]], all)
  {
    KeptIncreasing(pending, all, minRating);
    if pending != [] {
      var last := |pending| - 1;
      var init := pending[..last];
      KeepFrequentAt(init, all, minRating);
      KeptIncreasing(init, all, minRating);
      var kept := KeptPositions(pending, all, minRating);
      forall k | 0 <= k < |KeptPositions(init, all, minRating)|
        ensures pending[kept[k]] == init[kept[k]]
      {
      }
    }
  }

  lemma KeepFrequentSound(pending: seq<Row>, all: seq<Row>, minRating: int, x: Row)
    requires x in KeepFrequent(pending, all, minRating)
    ensures exists i :: 0 <= i < |pending| && UserCount(all, pending[i].userId) >= minRating
                        && x == Counted(pending[i], all)
  {
    KeepFrequentAt(pending, all, minRating);
    var kept, r := KeptPositions(pending, all, minRating), KeepFrequent(pending, all, minRating);
    var k :| 0 <= k < |r| && r[k] == x;
    KeptExactly(pending, all, minRating, kept[k]);
  }

  lemma KeepFrequentComplete(pending: seq<Row>, all: seq<Row>, minRating: int, i: nat)
    requires i < |pending| && UserCount(all, pending[i].userId) >= minRating
    ensures Counted(pending[i], all) in KeepFrequent(pending, all, minRating)
  {
    KeepFrequentAt(pending, all, minRating);
    KeptExactly(pending, all, minRating, i);
    var kept := KeptPositions(pending, all, minRating);
    var k :| 0 <= k < |kept| && kept[k] == i;
    assert KeepFrequent(pending, all, minRating)[k] == Counted(pending[i], all);
  }

  /**
   * `filter_users` keeps exactly the rows whose user has at least
   * `minRating` rows in the input, in input order, each as often as it
   * occurs and unchanged but for the new count.
   */
  lemma FilterUsersExact(rows: seq<Row>, minRating: int)
    ensures var kept, r := KeptPositions(rows, rows, minRating), FilterFrequent(rows, minRating);
      && |r| == |kept|
      && (forall k :: 0 <= k < |kept| ==> kept[k] < |rows| && r[k] == Counted(rows[kept[k]], rows))
      && (forall k, l :: 0 <= k < l < |kept| ==> kept[k] < kept[l])
      && (forall i :: 0 <= i < |rows| ==> (i in kept <==> UserCount(rows, rows[i].userId) >= minRating))
    ensures forall x :: x in FilterFrequent(rows, minRating) <==>
      exists i :: 0 <= i < |rows| && UserCount(rows, rows[i].userId) >= minRating && x == Counted(rows[i], rows)
  {
    KeepFrequentAt(rows, rows, minRating);
    KeptIncreasing(rows, rows, minRating);
    forall i | 0 <= i < |rows| {
      KeptExactly(rows, rows, minRating, i);
    }
    forall x | x in FilterFrequent(rows, minRating)
      ensures exists i :: 0 <= i < |rows| && UserCount(rows, rows[i].userId) >= minRating && x == Counted(rows[i], rows)
    {
      KeepFrequentSound(rows, rows, minRating, x);
    }
    forall i | 0 <= i < |rows| && UserCount(rows, rows[i].userId) >= minRating
      ensures Counted(rows[i], rows) in FilterFrequent(rows, minRating)
    {
      KeepFrequentComplete(rows, rows, minRating, i);
    }
  }

  /** Every remaining row's user has at least `minRating` rows in the input, and that is its count. */
  lemma FilterUsersThreshold(rows: seq<Row>, minRating: int, x: Row)
    requires x in FilterFrequent(rows, minRating)
    ensures UserCount(rows, x.userId) >= minRating
    ensures x.count == Some(UserCount(rows, x.userId))
  {
    KeepFrequentSound(rows, rows, minRating, x);
  }

  /** When no user reaches the threshold the table becomes empty (and nothing raises). */
  lemma FilterUsersNoneQualify(rows: seq<Row>, minRating: int)
    requires forall i :: 0 <= i < |rows| ==> UserCount(rows, rows[i].userId) < minRating
    ensures FilterFrequent(rows, minRating) == []
  {
    if FilterFrequent(rows, minRating) != [] {
      KeepFrequentSound(rows, rows, minRating, FilterFrequent(rows, minRating)[0]);
    }
  }

  lemma FilterStepWellFormed(t: Table, minRating: int)
    requires WellFormed(t)
    ensures WellFormed(FilterStep(t, minRating))
  {
    forall x | x in FilterFrequent(t.rows, minRating)
      ensures exists i :: 0 <= i < |t.rows| && x == Counted(t.rows[i], t.rows)
    {
      KeepFrequentSound(t.rows, t.rows, minRating, x);
    }
  }

  /* ---------------- scale_ratings ---------------- */

  /** The smallest rating of a non-empty table: what fitting MinMaxScaler records as its minimum. */
  function LowestRating(rows: seq<Row>): (lo: int)
    requires |rows| > 0
    ensures forall i :: 0 <= i < |rows| ==> lo <= rows[i].rating
    ensures exists i :: 0 <= i < |rows| && lo == rows[i].rating
  {
    if |rows| == 1 then rows[0].rating
    else
      var rest := LowestRating(rows[1..]);
      assert forall i :: 1 <= i < |rows| ==> rows[i] == rows[1..][i - 1];
      if rows[0].rating <= rest then rows[0].rating else rest
  }

  /** The largest rating of a non-empty table: the fitted maximum. */
  function HighestRating(rows: seq<Row>): (hi: int)
    requires |rows| > 0
    ensures forall i :: 0 <= i < |rows| ==> rows[i].rating <= hi
    ensures exists i :: 0 <= i < |rows| && hi == rows[i].rating
  {
    if |rows| == 1 then rows[0].rating
    else
      var rest := HighestRating(rows[1..]);
      assert forall i :: 1 <= i < |rows| ==> rows[i] == rows[1..][i - 1];
      if rows[0].rating >= rest then rows[0].rating else rest
  }

  /**
   * MinMaxScaler's transform onto its default range [0, 1]: `(x - lo) / (hi - lo)`,
   * and the middle of the range, 0.5, when every rating is the same.
   */
  function Rescaled(x: int, lo: int, hi: int): real
  {
    if hi == lo then 0.5 else (x - lo) as real / (hi - lo) as real
  }

  lemma QuotientBounds(a: real, b: real, d: real)
    requires 0.0 <= a <= b <= d && d > 0.0
    ensures 0.0 <= a / d <= b / d <= 1.0
  {
  }

  /** Ratings between the fitted bounds land in [0, 1], the bounds at its ends, in the same order. */
  lemma RescaledRange(x: int, y: int, lo: int, hi: int)
    requires lo <= x <= hi && lo <= y <= hi
    ensures 0.0 <= Rescaled(x, lo, hi) <= 1.0
    ensures lo < hi ==> Rescaled(lo, lo, hi) == 0.0 && Rescaled(hi, lo, hi) == 1.0
    ensures x <= y ==> Rescaled(x, lo, hi) <= Rescaled(y, lo, hi)
  {
    if lo < hi {
      var d := (hi - lo) as real;
      if x <= y {
        QuotientBounds((x - lo) as real, (y - lo) as real, d);
      } else {
        QuotientBounds((y - lo) as real, (x - lo) as real, d);
      }
    }
  }

  /**
   * `MinMaxScaler(inputCol="rating", outputCol="scaled_rating")` fitted on the
   * table and applied to it. Spark refuses an existing output column;
   * `fitFails` stands for any other failure of fitting.
   */
  function ScaleStep(t: Table, fitFails: bool): (r: Option<Table>)
    ensures r.Some? <==> !t.hasScaledRating && !fitFails
    ensures r.Some? ==> |r.value.rows| == |t.rows| && r.value == t.(rows := r.value.rows, hasScaledRating := true)
    ensures r.Some? ==> forall i :: 0 <= i < |t.rows| ==>
      r.value.rows[i] == t.rows[i].(scaledRating := Some(Rescaled(t.rows[i].rating, LowestRating(t.rows), HighestRating(t.rows))))
  {
    if t.hasScaledRating || fitFails then None
    else
      var rows := seq(|t.rows|, i requires 0 <= i < |t.rows| =>
        t.rows[i].(scaledRating := Some(Rescaled(t.rows[i].rating, LowestRating(t.rows), HighestRating(t.rows)))));
      Some(t.(rows := rows, hasScaledRating := true))
  }

  /**
   * Every scaled rating lies in [0, 1], the scaling keeps the order of the
   * ratings, and the lowest and highest ratings map to 0 and 1 when they differ.
   */
  lemma ScaledRatings(t: Table, fitFails: bool, i: nat, j: nat)
    requires ScaleStep(t, fitFails).Some? && i < |t.rows| && j < |t.rows|
    ensures var rows := ScaleStep(t, fitFails).value.rows;
      && 0.0 <= rows[i].scaledRating.value <= 1.0
      && (t.rows[i].rating <= t.rows[j].rating ==> rows[i].scaledRating.value <= rows[j].scaledRating.value)
      && (t.rows[i].rating == LowestRating(t.rows) < HighestRating(t.rows) ==> rows[i].scaledRating.value == 0.0)
      && (t.rows[i].rating == HighestRating(t.rows) > LowestRating(t.rows) ==> rows[i].scaledRating.value == 1.0)
  {
    RescaledRange(t.rows[i].rating, t.rows[j].rating, LowestRating(t.rows), HighestRating(t.rows));
  }

  /** Scaling adds the scaled column to the schema and to every row alike. */
  lemma ScaleStepWellFormed(t: Table, fitFails: bool)
    requires WellFormed(t) && ScaleStep(t, fitFails).Some?
    ensures WellFormed(ScaleStep(t, fitFails).value)
  {
    var rows := ScaleStep(t, fitFails).value.rows;
    forall x | x in rows
      ensures exists i :: 0 <= i < |t.rows| && x == rows[i]
    {
    }
  }

  /* ---------------- encode_data ---------------- */

  function UserIds(rows: seq<Row>): seq<int>
  {
    seq(|rows|, i requires 0 <= i < |rows| => rows[i].userId)
  }

  function AnimeIds(rows: seq<Row>): seq<int>
  {
    seq(|rows|, i requires 0 <= i < |rows| => rows[i].animeId)
  }

  /**
   * What a fitted StringIndexer is expected to be: the distinct values are
   * its labels, and distinct labels get distinct indices below the number of
   * labels.
   */
  ghost predicate DenseIndex(labels: map<int, nat>, values: seq<int>)
  {
    && (forall v :: v in labels <==> v in values)
    && (forall v, w :: v in labels && w in labels && v != w ==> labels[v] != labels[w])
    && (forall v :: v in labels ==> labels[v] < |labels|)
  }

  /**
   * `StringIndexer(inputCol="user_id", outputCol="user")`: `labels` is what
   * fitting on the table produced; transforming raises on a user the labels
   * do not know, and the indexer refuses an existing output column.
   */
  function IndexUsers(t: Table, labels: map<int, nat>): (r: Option<Table>)
    ensures r.Some? <==> !t.hasUser
                         && forall i :: 0 <= i < |t.rows| ==> t.rows[i].userId in labels
    ensures r.Some? ==> |r.value.rows| == |t.rows| && r.value == t.(rows := r.value.rows, hasUser := true)
    ensures r.Some? ==> forall i :: 0 <= i < |t.rows| ==>
      r.value.rows[i] == t.rows[i].(user := Some(labels[t.rows[i].userId]))
  {
    if t.hasUser then None
    else if exists i :: 0 <= i < |t.rows| && t.rows[i].userId !in labels then None
    else
      var rows := seq(|t.rows|, i requires 0 <= i < |t.rows| =>
        t.rows[i].(user := Some(labels[t.rows[i].userId])));
      Some(t.(rows := rows, hasUser := true))
  }

  lemma IndexUsersWellFormed(t: Table, labels: map<int, nat>)
    requires WellFormed(t) && IndexUsers(t, labels).Some?
    ensures WellFormed(IndexUsers(t, labels).value)
  {
    var rows := IndexUsers(t, labels).value.rows;
    forall x | x in rows
      ensures exists i :: 0 <= i < |t.rows| && x == rows[i]
    {
    }
  }

  /** `StringIndexer(inputCol="anime_id", outputCol="anime")`, as IndexUsers. */
  function IndexAnimes(t: Table, labels: map<int, nat>): (r: Option<Table>)
    ensures r.Some? <==> !t.hasAnime
                         && forall i :: 0 <= i < |t.rows| ==> t.rows[i].animeId in labels
    ensures r.Some? ==> |r.value.rows| == |t.rows| && r.value == t.(rows := r.value.rows, hasAnime := true)
    ensures r.Some? ==> forall i :: 0 <= i < |t.rows| ==>
      r.value.rows[i] == t.rows[i].(anime := Some(labels[t.rows[i].animeId]))
  {
    if t.hasAnime then None
    else if exists i :: 0 <= i < |t.rows| && t.rows[i].animeId !in labels then None
    else
      var rows := seq(|t.rows|, i requires 0 <= i < |t.rows| =>
        t.rows[i].(anime := Some(labels[t.rows[i].animeId])));
      Some(t.(rows := rows, hasAnime := true))
  }

  lemma IndexAnimesWellFormed(t: Table, labels: map<int, nat>)
    requires WellFormed(t) && IndexAnimes(t, labels).Some?
    ensures WellFormed(IndexAnimes(t, labels).value)
  {
    var rows := IndexAnimes(t, labels).value.rows;
    forall x | x in rows
      ensures exists i :: 0 <= i < |t.rows| && x == rows[i]
    {
    }
  }

  /**
   * With labels fitted on the table's users, indexing users succeeds, every
   * user index is below the number of distinct users, and two rows share an
   * index exactly when they share a user.
   */
  lemma DenseUserIndexing(t: Table, labels: map<int, nat>)
    requires !t.hasUser
    requires DenseIndex(labels, UserIds(t.rows))
    ensures IndexUsers(t, labels).Some?
    ensures var rows := IndexUsers(t, labels).value.rows;
      && (forall i :: 0 <= i < |rows| ==> rows[i].user.Some? && rows[i].user.value < |labels|)
      && (forall i, j :: 0 <= i < |rows| && 0 <= j < |rows| ==>
            (rows[i].user == rows[j].user <==> t.rows[i].userId == t.rows[j].userId))
  {
    var ids := UserIds(t.rows);
    forall i | 0 <= i < |t.rows| ensures t.rows[i].userId in labels {
      assert ids[i] == t.rows[i].userId;
    }
  }

  /**
   * With labels fitted on the table's anime, indexing anime succeeds, every
   * anime index is below the number of distinct anime, and two rows share an
   * index exactly when they share an anime.
   */
  lemma DenseAnimeIndexing(t: Table, labels: map<int, nat>)
    requires !t.hasAnime
    requires DenseIndex(labels, AnimeIds(t.rows))
    ensures IndexAnimes(t, labels).Some?
    ensures var rows := IndexAnimes(t, labels).value.rows;
      && (forall i :: 0 <= i < |rows| ==> rows[i].anime.Some? && rows[i].anime.value < |labels|)
      && (forall i, j :: 0 <= i < |rows| && 0 <= j < |rows| ==>
            (rows[i].anime == rows[j].anime <==> t.rows[i].animeId == t.rows[j].animeId))
  {
    var ids := AnimeIds(t.rows);
    forall i | 0 <= i < |t.rows| ensures t.rows[i].animeId in labels {
      assert ids[i] == t.rows[i].animeId;
    }
  }

  /* ---------------- split_data ---------------- */

  /** `[1 - test_size, test_size]`: the train fraction, then the test fraction, together one. */
  function Weights(testSize: real): (w: seq<real>)
    ensures |w| == 2 && w[1] == testSize && w[0] + w[1] == 1.0
  {
    [1.0 - testSize, testSize]
  }

  /** What `randomSplit` demands of its weights: none negative and a positive sum. */
  predicate ValidWeights(weights: seq<real>)
  {
    (forall i :: 0 <= i < |weights| ==> weights[i] >= 0.0) && Total(weights) > 0.0
  }

  function Total(weights: seq<real>): real
  {
    if weights == [] then 0.0 else weights[0] + Total(weights[1..])
  }

  /** `randomSplit` accepts exactly the test sizes from 0 to 1. */
  lemma WeightsAccepted(testSize: real)
    ensures ValidWeights(Weights(testSize)) <==> 0.0 <= testSize <= 1.0
  {
    var w := Weights(testSize);
    assert w[1..] == [testSize] && w[1..][1..] == [];
    assert Total(w[1..]) == testSize + Total([]);
    assert Total(w) == 1.0;
  }

  /**
   * One side of `randomSplit`: the rows, in table order, whose position is
   * (`test`) or is not among the positions `testRows` that the seeded
   * generator sends to the test side.
   */
  function Side(rows: seq<Row>, testRows: set<nat>, test: bool): seq<Row>
  {
    if rows == [] then []
    else
      var last := |rows| - 1;
      Side(rows[..last], testRows, test) + (if (last in testRows) == test then [rows[last]] else [])
  }

  lemma {:induction false} SideWithin(rows: seq<Row>, testRows: set<nat>, test: bool)
    ensures forall x :: x in Side(rows, testRows, test) ==> x in rows
  {
    if rows != [] {
      SideWithin(rows[..|rows| - 1], testRows, test);
    }
  }

  /** Every row of the table goes to exactly one side. */
  lemma {:induction false} SplitSizes(rows: seq<Row>, testRows: set<nat>)
    ensures |Side(rows, testRows, false)| + |Side(rows, testRows, true)| == |rows|
  {
    if rows != [] {
      SplitSizes(rows[..|rows| - 1], testRows);
    }
  }

  /** Train and test hold every row of the table exactly once between them. */
  lemma {:induction false} SplitPartition(rows: seq<Row>, testRows: set<nat>)
    ensures multiset(Side(rows, testRows, false)) + multiset(Side(rows, testRows, true)) == multiset(rows)
  {
    if rows != [] {
      var last := |rows| - 1;
      var init, x := rows[..last], rows[last];
      SplitPartition(init, testRows);
      assert rows == init + [x];
      var train, test := Side(init, testRows, false), Side(init, testRows, true);
      if last in testRows {
        assert Side(rows, testRows, true) == test + [x];
      } else {
        assert Side(rows, testRows, false) == train + [x];
      }
    }
  }

  /** `X_train_array` / `X_test_array`: the user list and the anime list. */
  datatype SplitInputs = SplitInputs(users: seq<nat>, animes: seq<nat>)

  predicate Paired(x: SplitInputs)
  {
    |x.users| == |x.animes|
  }

  ghost predicate Encoded(rows: seq<Row>)
  {
    forall x | x in rows :: x.user.Some? && x.anime.Some?
  }

  ghost predicate Scaled(rows: seq<Row>)
  {
    forall x | x in rows :: x.scaledRating.Some?
  }

  /** Both lists are projected from the same split frame, row by row. */
  function Inputs(rows: seq<Row>): (x: SplitInputs)
    requires Encoded(rows)
    ensures Paired(x) && |x.users| == |rows|
    ensures forall i :: 0 <= i < |rows| ==> x.users[i] == rows[i].user.value && x.animes[i] == rows[i].anime.value
  {
    SplitInputs(
      seq(|rows|, i requires 0 <= i < |rows| => assert rows[i] in rows; rows[i].user.value),
      seq(|rows|, i requires 0 <= i < |rows| => assert rows[i] in rows; rows[i].anime.value))
  }

  /** `y_train` / `y_test`: the scaled ratings of the split frame. */
  function Targets(rows: seq<Row>): (y: seq<real>)
    requires Scaled(rows)
    ensures |y| == |rows|
    ensures forall i :: 0 <= i < |rows| ==> y[i] == rows[i].scaledRating.value
  {
    seq(|rows|, i requires 0 <= i < |rows| => assert rows[i] in rows; rows[i].scaledRating.value)
  }

  /* ---------------- save_artifacts ---------------- */

  /** The four mappings, in the order of the `artifacts` dictionary. */
  datatype MappingName = User2UserEncoded | User2UserDecoded | Anime2AnimeEncoded | Anime2AnimeDecoded

  function FileStem(name: MappingName): string
  {
    match name
    case User2UserEncoded => "user2user_encoded"
    case User2UserDecoded => "user2user_decoded"
    case Anime2AnimeEncoded => "anime2anime_encoded"
    case Anime2AnimeDecoded => "anime2anime_decoded"
  }

  /**
   * Where joblib writes: `{output_dir}/{FileStem(name)}.pkl`, or one of the
   * four array paths of the configuration.
   */
  datatype ArtifactKey = MappingFile(dir: string, name: MappingName) | XTrainArrayFile | XTestArrayFile | YTrainFile | YTestFile

  datatype Artifact =
    | PickledMapping(entries: map<int, int>)
    | PickledInputs(inputs: Option<SplitInputs>)
    | PickledTargets(targets: Option<seq<real>>)

  /** The output locations after the first `n` dumps of `writes`, in order. */
  function Store(disk: map<ArtifactKey, Artifact>, writes: seq<(ArtifactKey, Artifact)>, n: nat): map<ArtifactKey, Artifact>
    requires n <= |writes|
  {
    if n == 0 then disk
    else Store(disk, writes, n - 1)[writes[n - 1].0 := writes[n - 1].1]
  }

  /** The position of the first dump from `i` on that raises, or the number of dumps when none does. */
  function FailureFrom(writes: seq<(ArtifactKey, Artifact)>, failing: set<ArtifactKey>, i: nat): (k: nat)
    requires i <= |writes|
    ensures i <= k <= |writes|
    ensures forall j :: i <= j < k ==> writes[j].0 !in failing
    ensures k < |writes| ==> writes[k].0 in failing
    decreases |writes| - i
  {
    if i == |writes| then i
    else if writes[i].0 in failing then i
    else FailureFrom(writes, failing, i + 1)
  }

  function FirstFailure(writes: seq<(ArtifactKey, Artifact)>, failing: set<ArtifactKey>): nat
  {
    FailureFrom(writes, failing, 0)
  }

  /** The first failing dump is at `k` when none before it fails and (if there is one) the dump at `k` does. */
  lemma FirstFailureAt(writes: seq<(ArtifactKey, Artifact)>, failing: set<ArtifactKey>, k: nat)
    requires k <= |writes|
    requires forall j :: 0 <= j < k ==> writes[j].0 !in failing
    requires k < |writes| ==> writes[k].0 in failing
    ensures FirstFailure(writes, failing) == k
  {
  }

  ghost predicate DistinctKeys(writes: seq<(ArtifactKey, Artifact)>)
  {
    forall i, j :: 0 <= i < j < |writes| ==> writes[i].0 != writes[j].0
  }

  /** After writing artifacts to distinct places, each place written holds its artifact. */
  lemma {:induction false} StoreHolds(disk: map<ArtifactKey, Artifact>, writes: seq<(ArtifactKey, Artifact)>, n: nat, j: nat)
    requires DistinctKeys(writes) && j < n <= |writes|
    ensures writes[j].0 in Store(disk, writes, n) && Store(disk, writes, n)[writes[j].0] == writes[j].1
  {
    if j < n - 1 {
      StoreHolds(disk, writes, n - 1, j);
    }
  }

  /** A place no dump writes keeps what it held before. */
  lemma {:induction false} StoreKeeps(disk: map<ArtifactKey, Artifact>, writes: seq<(ArtifactKey, Artifact)>, n: nat, key: ArtifactKey)
    requires n <= |writes|
    requires forall j :: 0 <= j < n ==> writes[j].0 != key
    ensures key in Store(disk, writes, n) <==> key in disk
    ensures key in disk ==> Store(disk, writes, n)[key] == disk[key]
  {
    if n > 0 {
      StoreKeeps(disk, writes, n - 1, key);
    }
  }

  /** Every place in `writes` holds what was written there. */
  ghost predicate Written(disk: map<ArtifactKey, Artifact>, writes: seq<(ArtifactKey, Artifact)>)
  {
    forall j :: 0 <= j < |writes| ==> writes[j].0 in disk && disk[writes[j].0] == writes[j].1
  }

  lemma StoreWritten(disk: map<ArtifactKey, Artifact>, writes: seq<(ArtifactKey, Artifact)>)
    requires DistinctKeys(writes)
    ensures Written(Store(disk, writes, |writes|), writes)
  {
    forall j | 0 <= j < |writes|
      ensures writes[j].0 in Store(disk, writes, |writes|) && Store(disk, writes, |writes|)[writes[j].0] == writes[j].1
    {
      StoreHolds(disk, writes, |writes|, j);
    }
  }

  /* ---------------- What Spark and joblib do ---------------- */

  /**
   * The outcomes of the library calls of one run: the selected CSV (`None`
   * when reading or selecting raises), whether fitting MinMaxScaler raises,
   * the labels the two StringIndexer fits produce, the row positions the
   * seeded `randomSplit` sends to the test side, and the places whose dump
   * raises.
   */
  datatype Externals = Externals(
    csv: Option<seq<Interaction>>,
    scaleFitFails: bool,
    userLabels: map<int, nat>,
    animeLabels: map<int, nat>,
    testRows: set<nat>,
    failing: set<ArtifactKey>)

  /* ---------------- The processor's fields, as a value ---------------- */

  /** user id to index, index to user id, anime id to index, index to anime id. */
  datatype Dictionaries = Dictionaries(
    user2userEncoded: map<int, int>, user2userDecoded: map<int, int>,
    anime2animeEncoded: map<int, int>, anime2animeDecoded: map<int, int>)

  /** `X_train_array`, `X_test_array`, `y_train` and `y_test`. */
  datatype SplitArrays = SplitArrays(
    xTrainArray: Option<SplitInputs>, xTestArray: Option<SplitInputs>,
    yTrain: Option<seq<real>>, yTest: Option<seq<real>>)

  /**
   * What a DataProcessor holds: the rating table, the four dictionaries,
   * the split arrays, and what the output locations hold.
   */
  datatype State = State(
    ratingDf: Option<Table>, dictionaries: Dictionaries, arrays: SplitArrays, disk: map<ArtifactKey, Artifact>)

  /** The table is well formed and each input array pairs its two lists. */
  ghost predicate ValidState(s: State)
  {
    && (s.ratingDf.Some? ==> WellFormed(s.ratingDf.value))
    && (s.arrays.xTrainArray.Some? ==> Paired(s.arrays.xTrainArray.value))
    && (s.arrays.xTestArray.Some? ==> Paired(s.arrays.xTestArray.value))
  }

  /** The state a call leaves behind, what it raised, and the stages it invoked. */
  datatype Outcome = Outcome(state: State, raised: Option<CustomException>, stages: seq<Stage>)

  /** A single stage is invoked once and raises nothing but its own exception. */
  predicate OneStage(r: Outcome, stage: Stage)
  {
    r.stages == [stage] && (r.raised.Some? ==> r.raised.value == CustomException(stage))
  }

  /** `load_data`: a CSV that cannot be read or selected raises; otherwise it becomes the table. */
  ghost function LoadDataOutcome(s: State, csv: Option<seq<Interaction>>): (r: Outcome)
    requires ValidState(s)
    ensures OneStage(r, Load) && ValidState(r.state)
    ensures r.raised.Some? <==> csv.None?
    ensures r.state.dictionaries == s.dictionaries && r.state.arrays == s.arrays && r.state.disk == s.disk
    ensures r.raised.Some? ==> r.state == s
    ensures r.raised.None? ==> r.state.ratingDf == Some(Loaded(csv.value)) && !r.state.ratingDf.value.hasCount
  {
    if csv.None? then Outcome(s, Some(CustomException(Load)), [Load])
    else Outcome(s.(ratingDf := Some(Loaded(csv.value))), None, [Load])
  }

  /** `filter_users`: raises only when there is no table to group. */
  ghost function FilterUsersOutcome(s: State, minRating: int): (r: Outcome)
    requires ValidState(s)
    ensures OneStage(r, Filter) && ValidState(r.state)
    ensures r.raised.Some? <==> s.ratingDf.None?
    ensures r.state.dictionaries == s.dictionaries && r.state.arrays == s.arrays && r.state.disk == s.disk
    ensures r.raised.Some? ==> r.state == s
    ensures r.raised.None? ==> r.state.ratingDf == Some(FilterStep(s.ratingDf.value, minRating))
  {
    if s.ratingDf.None? then Outcome(s, Some(CustomException(Filter)), [Filter])
    else
      FilterStepWellFormed(s.ratingDf.value, minRating);
      Outcome(s.(ratingDf := Some(FilterStep(s.ratingDf.value, minRating))), None, [Filter])
  }

  /** `scale_ratings`: raises with no table, or when the scaler cannot be fitted or applied. */
  ghost function ScaleRatingsOutcome(s: State, fitFails: bool): (r: Outcome)
    requires ValidState(s)
    ensures OneStage(r, Scale) && ValidState(r.state)
    ensures r.raised.Some? <==> s.ratingDf.None? || ScaleStep(s.ratingDf.value, fitFails).None?
    ensures r.state.dictionaries == s.dictionaries && r.state.arrays == s.arrays && r.state.disk == s.disk
    ensures r.raised.Some? ==> r.state == s
    ensures r.raised.None? ==> r.state.ratingDf == ScaleStep(s.ratingDf.value, fitFails)
  {
    if s.ratingDf.None? || ScaleStep(s.ratingDf.value, fitFails).None? then Outcome(s, Some(CustomException(Scale)), [Scale])
    else
      ScaleStepWellFormed(s.ratingDf.value, fitFails);
      Outcome(s.(ratingDf := ScaleStep(s.ratingDf.value, fitFails)), None, [Scale])
  }

  /**
   * `encode_data`: indexes users, then anime. When indexing anime raises,
   * the table keeps the user index, which the source assigned before.
   */
  ghost function EncodeDataOutcome(s: State, userLabels: map<int, nat>, animeLabels: map<int, nat>): (r: Outcome)
    requires ValidState(s)
    ensures OneStage(r, Encode) && ValidState(r.state)
    ensures r.state.dictionaries == s.dictionaries && r.state.arrays == s.arrays && r.state.disk == s.disk
    ensures r.raised.None? <==>
      && s.ratingDf.Some?
      && IndexUsers(s.ratingDf.value, userLabels).Some?
      && IndexAnimes(IndexUsers(s.ratingDf.value, userLabels).value, animeLabels).Some?
    ensures r.raised.None? ==>
      r.state.ratingDf == IndexAnimes(IndexUsers(s.ratingDf.value, userLabels).value, animeLabels)
    ensures r.raised.Some? ==>
      r.state.ratingDf == (if s.ratingDf.Some? && IndexUsers(s.ratingDf.value, userLabels).Some?
                           then IndexUsers(s.ratingDf.value, userLabels) else s.ratingDf)
  {
    if s.ratingDf.None? then Outcome(s, Some(CustomException(Encode)), [Encode])
    else
      var byUser := IndexUsers(s.ratingDf.value, userLabels);
      if byUser.None? then Outcome(s, Some(CustomException(Encode)), [Encode])
      else
        IndexUsersWellFormed(s.ratingDf.value, userLabels);
        var byAnime := IndexAnimes(byUser.value, animeLabels);
        if byAnime.None? then Outcome(s.(ratingDf := byUser), Some(CustomException(Encode)), [Encode])
        else
          IndexAnimesWellFormed(byUser.value, animeLabels);
          Outcome(s.(ratingDf := byAnime), None, [Encode])
  }

  /**
   * `split_data`: splits the table and projects the arrays. The input
   * arrays are assigned before the targets are selected, so a table without
   * scaled ratings leaves new input arrays and old targets behind.
   */
  ghost function SplitDataOutcome(s: State, testRows: set<nat>, testSize: real): (r: Outcome)
    requires ValidState(s)
    ensures OneStage(r, Split) && ValidState(r.state)
    ensures r.state.ratingDf == s.ratingDf && r.state.dictionaries == s.dictionaries && r.state.disk == s.disk
    ensures s.ratingDf.None? || !ValidWeights(Weights(testSize))
            || !s.ratingDf.value.hasUser || !s.ratingDf.value.hasAnime ==>
      r.raised.Some? && r.state == s
    ensures s.ratingDf.Some? && ValidWeights(Weights(testSize)) && s.ratingDf.value.hasUser && s.ratingDf.value.hasAnime ==>
      var t := s.ratingDf.value;
      var train, test := Side(t.rows, testRows, false), Side(t.rows, testRows, true);
      && Encoded(train) && Encoded(test)
      && r.state.arrays.xTrainArray == Some(Inputs(train)) && r.state.arrays.xTestArray == Some(Inputs(test))
      && (t.hasScaledRating ==>
            && Scaled(train) && Scaled(test)
            && r.raised.None? && r.state.arrays.yTrain == Some(Targets(train)) && r.state.arrays.yTest == Some(Targets(test)))
      && (!t.hasScaledRating ==> r.raised.Some? && r.state.arrays.yTrain == s.arrays.yTrain && r.state.arrays.yTest == s.arrays.yTest)
    ensures r.raised.None? ==>
      && s.ratingDf.Some?
      && r.state.arrays.xTrainArray.Some? && r.state.arrays.xTestArray.Some? && r.state.arrays.yTrain.Some? && r.state.arrays.yTest.Some?
      && |r.state.arrays.xTrainArray.value.users| == |r.state.arrays.yTrain.value|
      && |r.state.arrays.xTestArray.value.users| == |r.state.arrays.yTest.value|
      && |r.state.arrays.yTrain.value| + |r.state.arrays.yTest.value| == |s.ratingDf.value.rows|
  {
    var failed := Outcome(s, Some(CustomException(Split)), [Split]);
    if s.ratingDf.None? || !ValidWeights(Weights(testSize)) then failed
    else
      var t := s.ratingDf.value;
      if !t.hasUser || !t.hasAnime then failed
      else
        var train, test := Side(t.rows, testRows, false), Side(t.rows, testRows, true);
        SideWithin(t.rows, testRows, false);
        SideWithin(t.rows, testRows, true);
        var withInputs := s.arrays.(xTrainArray := Some(Inputs(train)), xTestArray := Some(Inputs(test)));
        if !t.hasScaledRating then Outcome(s.(arrays := withInputs), Some(CustomException(Split)), [Split])
        else
          SplitSizes(t.rows, testRows);
          Outcome(s.(arrays := withInputs.(yTrain := Some(Targets(train)), yTest := Some(Targets(test)))), None, [Split])
  }

  /** The eight artifacts in the order `save_artifacts` dumps them. */
  function ArtifactsOf(outputDir: string, s: State): seq<(ArtifactKey, Artifact)>
  {
    [ (MappingFile(outputDir, User2UserEncoded), PickledMapping(s.dictionaries.user2userEncoded)),
      (MappingFile(outputDir, User2UserDecoded), PickledMapping(s.dictionaries.user2userDecoded)),
      (MappingFile(outputDir, Anime2AnimeEncoded), PickledMapping(s.dictionaries.anime2animeEncoded)),
      (MappingFile(outputDir, Anime2AnimeDecoded), PickledMapping(s.dictionaries.anime2animeDecoded)),
      (XTrainArrayFile, PickledInputs(s.arrays.xTrainArray)),
      (XTestArrayFile, PickledInputs(s.arrays.xTestArray)),
      (YTrainFile, PickledTargets(s.arrays.yTrain)),
      (YTestFile, PickledTargets(s.arrays.yTest)) ]
  }

  /** The eight dumps go to eight different places. */
  lemma ArtifactsDistinct(outputDir: string, s: State)
    ensures DistinctKeys(ArtifactsOf(outputDir, s))
  {
  }

  /**
   * `save_artifacts`: the dumps in order until the first that raises; what
   * was written before it stays written.
   */
  ghost function SaveArtifactsOutcome(outputDir: string, s: State, failing: set<ArtifactKey>): (r: Outcome)
    requires ValidState(s)
    ensures OneStage(r, Save) && ValidState(r.state)
    ensures r.state.ratingDf == s.ratingDf && r.state.dictionaries == s.dictionaries && r.state.arrays == s.arrays
    ensures var writes := ArtifactsOf(outputDir, s);
      && (r.raised.None? <==> forall j :: 0 <= j < |writes| ==> writes[j].0 !in failing)
      && r.state.disk == Store(s.disk, writes, FirstFailure(writes, failing))
    ensures r.raised.None? ==> Written(r.state.disk, ArtifactsOf(outputDir, s))
  {
    var writes := ArtifactsOf(outputDir, s);
    var k := FirstFailure(writes, failing);
    ArtifactsDistinct(outputDir, s);
    StoreWritten(s.disk, writes);
    Outcome(s.(disk := Store(s.disk, writes, k)), if k < |writes| then Some(CustomException(Save)) else None, [Save])
  }

  /**
   * `run`: the stages in order with their default arguments; the first
   * CustomException is logged (and returned here) and no later stage runs.
   */
  ghost function RunOutcome(outputDir: string, s: State, env: Externals): (r: Outcome)
    requires ValidState(s)
    ensures ValidState(r.state)
  {
    var load := LoadDataOutcome(s, env.csv);
    if load.raised.Some? then Outcome(load.state, load.raised, [Load]) else
    var filter := FilterUsersOutcome(load.state, 400);
    if filter.raised.Some? then Outcome(filter.state, filter.raised, [Load, Filter]) else
    var scale := ScaleRatingsOutcome(filter.state, env.scaleFitFails);
    if scale.raised.Some? then Outcome(scale.state, scale.raised, [Load, Filter, Scale]) else
    var encode := EncodeDataOutcome(scale.state, env.userLabels, env.animeLabels);
    if encode.raised.Some? then Outcome(encode.state, encode.raised, [Load, Filter, Scale, Encode]) else
    var split := SplitDataOutcome(encode.state, env.testRows, 0.2);
    if split.raised.Some? then Outcome(split.state, split.raised, [Load, Filter, Scale, Encode, Split]) else
    var save := SaveArtifactsOutcome(outputDir, split.state, env.failing);
    Outcome(save.state, save.raised, [Load, Filter, Scale, Encode, Split, Save])
  }

  /**
   * The stages run in pipeline order; a run that raises stops at the stage
   * that raised, and filtering, which follows a successful load, never does.
   */
  lemma RunTrace(outputDir: string, s: State, env: Externals)
    requires ValidState(s)
    ensures var r := RunOutcome(outputDir, s, env);
      && 0 < |r.stages| <= |Pipeline| && r.stages == Pipeline[..|r.stages|]
      && (r.raised.None? ==> r.stages == Pipeline)
      && (r.raised.Some? ==> r.raised.value.stage == r.stages[|r.stages| - 1] && r.raised.value.stage != Filter)
  {
    PipelinePrefixes();
    var load := LoadDataOutcome(s, env.csv);
    if load.raised.None? {
      var filter := FilterUsersOutcome(load.state, 400);
      assert filter.raised.None?;
      var scale := ScaleRatingsOutcome(filter.state, env.scaleFitFails);
      if scale.raised.None? {
        var encode := EncodeDataOutcome(scale.state, env.userLabels, env.animeLabels);
        if encode.raised.None? {
          var split := SplitDataOutcome(encode.state, env.testRows, 0.2);
          if split.raised.None? {
            assert RunOutcome(outputDir, s, env).stages == Pipeline;
          }
        }
      }
    }
  }

  /**
   * When fitting the scaler raises, a run that loads its CSV stops at
   * scaling: it logs the scaling failure, leaves the filtered table behind,
   * and neither splits nor writes anything.
   */
  lemma RunStopsAtScale(outputDir: string, s: State, env: Externals)
    requires ValidState(s) && env.csv.Some? && env.scaleFitFails
    ensures var r := RunOutcome(outputDir, s, env);
      && r.stages == [Load, Filter, Scale]
      && r.raised == Some(CustomException(Scale))
      && r.state.ratingDf == Some(FilterStep(Loaded(env.csv.value), 400))
      && r.state.arrays == s.arrays && r.state.disk == s.disk
  {
  }

  /**
   * A run that raises nothing leaves paired train and test arrays whose
   * targets share out exactly the rows of the users with at least 400
   * ratings.
   */
  lemma RunSplitsFilteredRows(outputDir: string, s: State, env: Externals)
    requires ValidState(s)
    ensures var r := RunOutcome(outputDir, s, env);
      r.raised.None? ==>
        && env.csv.Some?
        && r.state.arrays.xTrainArray.Some? && r.state.arrays.xTestArray.Some? && r.state.arrays.yTrain.Some? && r.state.arrays.yTest.Some?
        && |r.state.arrays.xTrainArray.value.users| == |r.state.arrays.xTrainArray.value.animes| == |r.state.arrays.yTrain.value|
        && |r.state.arrays.xTestArray.value.users| == |r.state.arrays.xTestArray.value.animes| == |r.state.arrays.yTest.value|
        && |r.state.arrays.yTrain.value| + |r.state.arrays.yTest.value| == |FilterFrequent(Loaded(env.csv.value).rows, 400)|
  {
  }

  /** A run never touches the four dictionaries. */
  lemma RunKeepsDictionaries(outputDir: string, s: State, env: Externals)
    requires ValidState(s)
    ensures RunOutcome(outputDir, s, env).state.dictionaries == s.dictionaries
  {
  }

  /** A run that raises nothing has written all eight artifacts. */
  lemma RunWritesArtifacts(outputDir: string, s: State, env: Externals)
    requires ValidState(s)
    ensures var r := RunOutcome(outputDir, s, env);
      r.raised.None? ==> Written(r.state.disk, ArtifactsOf(outputDir, r.state))
  {
  }

  /** A written mapping file holds the dictionary of the same name. */
  lemma SavedMapping(outputDir: string, s: State, name: MappingName)
    requires Written(s.disk, ArtifactsOf(outputDir, s))
    ensures MappingFile(outputDir, name) in s.disk
    ensures s.disk[MappingFile(outputDir, name)] == PickledMapping(
      match name
      case User2UserEncoded => s.dictionaries.user2userEncoded
      case User2UserDecoded => s.dictionaries.user2userDecoded
      case Anime2AnimeEncoded => s.dictionaries.anime2animeEncoded
      case Anime2AnimeDecoded => s.dictionaries.anime2animeDecoded)
  {
    var j := match name
      case User2UserEncoded => 0
      case User2UserDecoded => 1
      case Anime2AnimeEncoded => 2
      case Anime2AnimeDecoded => 3;
    assert ArtifactsOf(outputDir, s)[j].0 == MappingFile(outputDir, name);
  }

  /**
   * The dictionaries start empty and no stage fills them, so a run from a
   * fresh processor that raises nothing saves each mapping as an empty one.
   */
  lemma RunSavesEmptyMappings(outputDir: string, s: State, env: Externals, name: MappingName)
    requires ValidState(s) && s.dictionaries == Dictionaries(map[], map[], map[], map[])
    requires RunOutcome(outputDir, s, env).raised.None?
    ensures var disk := RunOutcome(outputDir, s, env).state.disk;
      MappingFile(outputDir, name) in disk && disk[MappingFile(outputDir, name)] == PickledMapping(map[])
  {
    RunWritesArtifacts(outputDir, s, env);
    RunKeepsDictionaries(outputDir, s, env);
    SavedMapping(outputDir, RunOutcome(outputDir, s, env).state, name);
  }

  /* ---------------- The processor ---------------- */

  /**
   * Each stage method overwrites the fields its stage assigns, as the
   * source does, and its contract ties the new fields to the outcome of
   * that stage on the old ones.
   */
  class DataProcessor {
    const inputFile: string
    const outputDir: string

    var ratingDf: Option<Table>
    /** Set to None when the processor is made and never assigned again. */
    const animeDf: Option<Table> := None

    /**
     * user id to index, index to user id, anime id to index, index to anime
     * id: made empty with the processor, and no stage fills them.
     */
    const user2userEncoded: map<int, int> := map[]
    const user2userDecoded: map<int, int> := map[]
    const anime2animeEncoded: map<int, int> := map[]
    const anime2animeDecoded: map<int, int> := map[]

    var xTrainArray: Option<SplitInputs>
    var xTestArray: Option<SplitInputs>
    var yTrain: Option<seq<real>>
    var yTest: Option<seq<real>>

    /** What the output locations hold. */
    var disk: map<ArtifactKey, Artifact>

    /** The stages invoked on this processor so far, in order. */
    ghost var attempted: seq<Stage>

    function Snapshot(): State
      reads this`ratingDf, this`xTrainArray, this`xTestArray, this`yTrain, this`yTest, this`disk
    {
      State(ratingDf,
            Dictionaries(user2userEncoded, user2userDecoded, anime2animeEncoded, anime2animeDecoded),
            SplitArrays(xTrainArray, xTestArray, yTrain, yTest),
            disk)
    }

    ghost predicate Valid()
      reads this`ratingDf, this`xTrainArray, this`xTestArray, this`yTrain, this`yTest, this`disk
    {
      ValidState(Snapshot())
    }

    /** `storage` is what the output locations held before. */
    constructor (inputFile: string, outputDir: string, storage: map<ArtifactKey, Artifact>)
      ensures Valid()
      ensures this.inputFile == inputFile && this.outputDir == outputDir
      ensures Snapshot() == State(None, Dictionaries(map[], map[], map[], map[]), SplitArrays(None, None, None, None), storage)
      ensures attempted == []
    {
      this.inputFile := inputFile;
      this.outputDir := outputDir;
      ratingDf := None;
      xTrainArray, xTestArray, yTrain, yTest := None, None, None, None;
      disk := storage;
      attempted := [];
    }

    method LoadData(csv: Option<seq<Interaction>>) returns (e: Option<CustomException>)
      requires Valid()
      modifies this`ratingDf, this`attempted
      ensures Valid()
      ensures var r := LoadDataOutcome(old(Snapshot()), csv);
        Snapshot() == r.state && e == r.raised && attempted == old(attempted) + r.stages
    {
      attempted := attempted + [Load];
      if csv.None? {
        return Some(CustomException(Load));
      }
      ratingDf := Some(Loaded(csv.value));
      e := None;
    }

    method FilterUsers(minRating: int := 400) returns (e: Option<CustomException>)
      requires Valid()
      modifies this`ratingDf, this`attempted
      ensures Valid()
      ensures var r := FilterUsersOutcome(old(Snapshot()), minRating);
        Snapshot() == r.state && e == r.raised && attempted == old(attempted) + r.stages
    {
      attempted := attempted + [Filter];
      if ratingDf.None? {
        return Some(CustomException(Filter));
      }
      FilterStepWellFormed(ratingDf.value, minRating);
      ratingDf := Some(FilterStep(ratingDf.value, minRating));
      e := None;
    }

    method ScaleRatings(fitFails: bool) returns (e: Option<CustomException>)
      requires Valid()
      modifies this`ratingDf, this`attempted
      ensures Valid()
      ensures var r := ScaleRatingsOutcome(old(Snapshot()), fitFails);
        Snapshot() == r.state && e == r.raised && attempted == old(attempted) + r.stages
    {
      attempted := attempted + [Scale];
      if ratingDf.None? {
        return Some(CustomException(Scale));
      }
      var scaled := ScaleStep(ratingDf.value, fitFails);
      if scaled.None? {
        return Some(CustomException(Scale));
      }
      ratingDf := scaled;
      e := None;
    }

    method EncodeData(userLabels: map<int, nat>, animeLabels: map<int, nat>)
      returns (e: Option<CustomException>)
      requires Valid()
      modifies this`ratingDf, this`attempted
      ensures Valid()
      ensures var r := EncodeDataOutcome(old(Snapshot()), userLabels, animeLabels);
        Snapshot() == r.state && e == r.raised && attempted == old(attempted) + r.stages
    {
      attempted := attempted + [Encode];
      if ratingDf.None? {
        return Some(CustomException(Encode));
      }
      var byUser := IndexUsers(ratingDf.value, userLabels);
      if byUser.None? {
        return Some(CustomException(Encode));
      }
      ratingDf := byUser;
      var byAnime := IndexAnimes(ratingDf.value, animeLabels);
      if byAnime.None? {
        return Some(CustomException(Encode));
      }
      ratingDf := byAnime;
      e := None;
    }

    method SplitData(testRows: set<nat>, testSize: real := 0.2) returns (e: Option<CustomException>)
      requires Valid()
      modifies this`xTrainArray, this`xTestArray, this`yTrain, this`yTest, this`attempted
      ensures Valid()
      ensures var r := SplitDataOutcome(old(Snapshot()), testRows, testSize);
        Snapshot() == r.state && e == r.raised && attempted == old(attempted) + r.stages
    {
      attempted := attempted + [Split];
      if ratingDf.None? || !ValidWeights(Weights(testSize)) {
        return Some(CustomException(Split));
      }
      var t := ratingDf.value;
      if !t.hasUser || !t.hasAnime {
        return Some(CustomException(Split));
      }
      var train := Side(t.rows, testRows, false);
      var test := Side(t.rows, testRows, true);
      SideWithin(t.rows, testRows, false);
      SideWithin(t.rows, testRows, true);
      xTrainArray := Some(Inputs(train));
      xTestArray := Some(Inputs(test));
      if !t.hasScaledRating {
        return Some(CustomException(Split));
      }
      yTrain := Some(Targets(train));
      yTest := Some(Targets(test));
      e := None;
    }

    /**
     * Dumps the four mappings in a loop, then the four arrays one by one;
     * the first dump that raises stops the rest, and what was written
     * before stays written.
     */
    method SaveArtifacts(failing: set<ArtifactKey>) returns (e: Option<CustomException>)
      requires Valid()
      modifies this`disk, this`attempted
      ensures Valid()
      ensures var r := SaveArtifactsOutcome(outputDir, old(Snapshot()), failing);
        Snapshot() == r.state && e == r.raised && attempted == old(attempted) + r.stages
    {
      attempted := attempted + [Save];
      var writes := ArtifactsOf(outputDir, Snapshot());
      var stored := disk;
      var mappings := writes[..4];
      var i := 0;
      while i < |mappings|
        invariant 0 <= i <= |mappings|
        invariant forall j :: 0 <= j < i ==> writes[j].0 !in failing
        invariant stored == Store(old(disk), writes, i)
      {
        if mappings[i].0 in failing {
          FirstFailureAt(writes, failing, i);
          disk := stored;
          return Some(CustomException(Save));
        }
        stored := stored[mappings[i].0 := mappings[i].1];
        i := i + 1;
      }
      if XTrainArrayFile in failing {
        FirstFailureAt(writes, failing, 4);
        disk := stored;
        return Some(CustomException(Save));
      }
      stored := stored[XTrainArrayFile := PickledInputs(xTrainArray)];
      assert stored == Store(old(disk), writes, 5);
      if XTestArrayFile in failing {
        FirstFailureAt(writes, failing, 5);
        disk := stored;
        return Some(CustomException(Save));
      }
      stored := stored[XTestArrayFile := PickledInputs(xTestArray)];
      assert stored == Store(old(disk), writes, 6);
      if YTrainFile in failing {
        FirstFailureAt(writes, failing, 6);
        disk := stored;
        return Some(CustomException(Save));
      }
      stored := stored[YTrainFile := PickledTargets(yTrain)];
      assert stored == Store(old(disk), writes, 7);
      if YTestFile in failing {
        FirstFailureAt(writes, failing, 7);
        disk := stored;
        return Some(CustomException(Save));
      }
      stored := stored[YTestFile := PickledTargets(yTest)];
      assert stored == Store(old(disk), writes, 8);
      FirstFailureAt(writes, failing, 8);
      disk := stored;
      e := None;
    }

    /** `run`: the stages in order, stopping at the first that raises. */
    method Run(env: Externals) returns (logged: Option<CustomException>)
      requires Valid()
      modifies this`ratingDf, this`xTrainArray, this`xTestArray, this`yTrain, this`yTest, this`disk, this`attempted
      ensures Valid()
      ensures var r := RunOutcome(outputDir, old(Snapshot()), env);
        Snapshot() == r.state && logged == r.raised && attempted == old(attempted) + r.stages
    {
      TracePrefixes(old(attempted));
      logged := LoadData(env.csv);
      if logged.Some? {
        return;
      }
      logged := FilterUsers();
      if logged.Some? {
        // filtering a loaded table does not raise
        assert false;
        return;
      }
      logged := ScaleRatings(env.scaleFitFails);
      if logged.Some? {
        return;
      }
      logged := EncodeData(env.userLabels, env.animeLabels);
      if logged.Some? {
        return;
      }
      logged := SplitData(env.testRows);
      if logged.Some? {
        return;
      }
      logged := SaveArtifacts(env.failing);
    }
  }
}
