/** The queries of the Mineral Commodity Summaries client: the substring filters,
    the distinct-value lists, the country ranking with shares, the time series
    and the per-country commodity profile, plus the client object that loads the
    table once and keeps it with its column map. */
module UsgsQueries {
  import opened Strings
  import opened Seqs
  import opened Tables
  import opened UsgsParse
  import opened UsgsColumns

  /** `frame[col].astype(str).str.contains(pat, case=False)` on one row. */
  predicate CellMatches(columns: seq<string>, row: Row, col: string, pat: string) {
    ContainsIgnoreCase(CellText(Get(columns, row, col)), pat)
  }

  /** The row survives `_filtered`: each given filter ("" stands for an absent one)
      occurs in its column; the statistic filter needs a statistic column. */
  predicate KeepRow(columns: seq<string>, cm: ColumnMap, commodity: string, country: string,
                    statistic: string, row: Row)
  {
    (commodity == "" || CellMatches(columns, row, cm.commodity, commodity))
    && (country == "" || CellMatches(columns, row, cm.country, country))
    && (statistic == "" || cm.statistic.None? || CellMatches(columns, row, cm.statistic.value, statistic))
  }

  /** The boolean mask `_filtered` builds, as a test on one row. */
  function RowTest(columns: seq<string>, cm: ColumnMap, commodity: string, country: string,
                   statistic: string): Row -> bool
  {
    row => KeepRow(columns, cm, commodity, country, statistic, row)
  }

  /** `_filtered`: exactly the rows every given filter keeps, in order. */
  function Filtered(df: Frame, cm: ColumnMap, commodity: string, country: string, statistic: string): (r: Frame)
    ensures r.columns == df.columns && |r.rows| <= |df.rows|
    ensures forall row :: row in r.rows <==>
              row in df.rows && KeepRow(df.columns, cm, commodity, country, statistic, row)
  {
    Frame(df.columns, Filter(df.rows, RowTest(df.columns, cm, commodity, country, statistic)))
  }

  /** The mask keeps rows in table order, each as often as it occurs: a single
      row survives exactly when every filter keeps it, and the rows of two stacked
      tables survive as the two tables' surviving rows, stacked. */
  lemma FilteredOrder(columns: seq<string>, cm: ColumnMap, commodity: string, country: string,
                      statistic: string, a: seq<Row>, b: seq<Row>, row: Row)
    ensures Filtered(Frame(columns, [row]), cm, commodity, country, statistic).rows
            == if KeepRow(columns, cm, commodity, country, statistic, row) then [row] else []
    ensures Filtered(Frame(columns, a + b), cm, commodity, country, statistic).rows
            == Filtered(Frame(columns, a), cm, commodity, country, statistic).rows
               + Filtered(Frame(columns, b), cm, commodity, country, statistic).rows
  {
    FilterSingle(row, RowTest(columns, cm, commodity, country, statistic));
    FilterAppend(a, b, RowTest(columns, cm, commodity, country, statistic));
  }

  /** With no filter given, or none that can apply, the whole table comes back. */
  lemma FilteredNothing(df: Frame, cm: ColumnMap, statistic: string)
    requires statistic == "" || cm.statistic.None?
    ensures Filtered(df, cm, "", "", statistic) == df
  {
    FilterAll(df.rows, RowTest(df.columns, cm, "", "", statistic));
  }

  /** `frame[col].dropna().astype(str)`: the text of every non-missing cell, in order. */
  function Texts(columns: seq<string>, rows: seq<Row>, col: string): seq<string> {
    if rows == [] then []
    else
      var init := Texts(columns, rows[..|rows| - 1], col);
      match Get(columns, rows[|rows| - 1], col)
      case Text(s) => init + [s]
      case Null => init
  }

  lemma {:induction false} TextsSpec(columns: seq<string>, rows: seq<Row>, col: string)
    ensures forall x :: x in Texts(columns, rows, col) <==>
              exists row :: row in rows && Get(columns, row, col) == Text(x)
  {
    if rows != [] {
      var init := rows[..|rows| - 1];
      var last := rows[|rows| - 1];
      TextsSpec(columns, init, col);
      assert forall row :: row in rows <==> row in init || row == last;
    }
  }

  /** `list_commodities` / `list_countries` once the table is loaded: the distinct
      non-missing values of the column, sorted, each once. */
  function DistinctValues(df: Frame, col: string): (r: seq<string>)
    ensures StrictlySorted(r)
    ensures forall i, j :: 0 <= i < j < |r| ==> r[i] != r[j]
    ensures forall x :: x in r <==> exists row :: row in df.rows && Get(df.columns, row, col) == Text(x)
  {
    TextsSpec(df.columns, df.rows, col);
    var r := SortedUnique(Texts(df.columns, df.rows, col));
    StrictlySortedDistinct(r);
    r
  }

  /** A row whose year and value both parsed, with the parsed numbers. */
  datatype Rec = Rec(cells: Row, year: int, value: real)

  function ParseRow(columns: seq<string>, cm: ColumnMap, row: Row): Option<Rec> {
    match (ParseYearCell(Get(columns, row, cm.year)), ParseValueCell(Get(columns, row, cm.value)))
    case (Some(y), Some(v)) => Some(Rec(row, y, v))
    case _ => None
  }

  /** Parsing the year and value columns, then `dropna(subset=[value, year])`. */
  function Parsed(columns: seq<string>, cm: ColumnMap, rows: seq<Row>): seq<Rec> {
    if rows == [] then []
    else
      var init := Parsed(columns, cm, rows[..|rows| - 1]);
      match ParseRow(columns, cm, rows[|rows| - 1])
      case Some(x) => init + [x]
      case None => init
  }

  /** The surviving rows are exactly the rows whose year and value both parse. */
  lemma {:induction false} ParsedSpec(columns: seq<string>, cm: ColumnMap, rows: seq<Row>)
    ensures |Parsed(columns, cm, rows)| <= |rows|
    ensures forall x :: x in Parsed(columns, cm, rows) ==>
              x.cells in rows && ParseRow(columns, cm, x.cells) == Some(x)
    ensures forall row :: row in rows && ParseRow(columns, cm, row).Some? ==>
              ParseRow(columns, cm, row).value in Parsed(columns, cm, rows)
  {
    if rows != [] {
      var init := rows[..|rows| - 1];
      ParsedSpec(columns, cm, init);
      assert forall row :: row in rows <==> row in init || row == rows[|rows| - 1];
    }
  }

  function Cells(recs: seq<Rec>): seq<Row> {
    seq(|recs|, i requires 0 <= i < |recs| => recs[i].cells)
  }

  /** The reported units: the most frequent non-missing unit text (the smallest
      among equally frequent ones), when there is a unit column and it has any. */
  function Units(columns: seq<string>, cm: ColumnMap, recs: seq<Rec>): (u: Option<string>)
    ensures u.None? <==> cm.unit.None? || Texts(columns, Cells(recs), cm.unit.value) == []
    ensures u.Some? ==>
              var us := Texts(columns, Cells(recs), cm.unit.value);
              u.value in us && (forall x :: x in us ==> multiset(us)[x] <= multiset(us)[u.value])
              && forall x :: x in us && x != u.value && multiset(us)[x] == multiset(us)[u.value] ==> Less(u.value, x)
  {
    if cm.unit.None? then None
    else
      var us := Texts(columns, Cells(recs), cm.unit.value);
      if us == [] then None else Some(Mode(us))
  }

  predicate IsProduction(columns: seq<string>, cm: ColumnMap, x: Rec) {
    cm.statistic.None? || ContainsIgnoreCase(CellText(Get(columns, x.cells, cm.statistic.value)), "Production")
  }

  /** Only rows whose statistic mentions "Production", when there is a statistic column. */
  function ProductionRows(columns: seq<string>, cm: ColumnMap, recs: seq<Rec>): seq<Rec> {
    Filter(recs, (x: Rec) => IsProduction(columns, cm, x))
  }

  function Years(recs: seq<Rec>): (r: seq<int>)
    ensures |r| == |recs| && forall i :: 0 <= i < |recs| ==> r[i] == recs[i].year
  {
    seq(|recs|, i requires 0 <= i < |recs| => recs[i].year)
  }

  /** `max(years)` is one of the years, and no year exceeds it. */
  lemma MaxYear(recs: seq<Rec>)
    requires recs != []
    ensures exists x :: x in recs && x.year == Max(Years(recs))
    ensures forall x :: x in recs ==> x.year <= Max(Years(recs))
  {
    var m := Max(Years(recs));
    var i :| 0 <= i < |recs| && Years(recs)[i] == m;
    assert recs[i] in recs;
    forall x | x in recs ensures x.year <= m {
      var j :| 0 <= j < |recs| && recs[j] == x;
      assert Years(recs)[j] in Years(recs);
    }
  }

  function InYear(recs: seq<Rec>, y: int): seq<Rec> {
    Filter(recs, (x: Rec) => x.year == y)
  }

  /** The (key, value) pairs `groupby(col)` sums, dropping rows whose key is missing. */
  function Keyed(columns: seq<string>, recs: seq<Rec>, col: string): seq<Entry<string>> {
    if recs == [] then []
    else
      var init := Keyed(columns, recs[..|recs| - 1], col);
      var last := recs[|recs| - 1];
      match Get(columns, last.cells, col)
      case Text(k) => init + [Entry(k, last.value)]
      case Null => init
  }

  /** The aggregate rows the ranking drops. */
  predicate Aggregate(country: string) {
    Lower(country) == "world total" || Lower(country) == "other countries"
  }

  predicate NotAggregate(e: Entry<string>) { !Aggregate(e.key) }

  /** The per-country sums the ranking ranks: aggregates dropped, largest first. */
  function RankedGroups(columns: seq<string>, cm: ColumnMap, recs: seq<Rec>): seq<Entry<string>> {
    Descending(Filter(GroupBy(Keyed(columns, recs, cm.country)), NotAggregate))
  }

  /** A group `groupby(col).sum()` produces is a key of the input holding its sum. */
  lemma GroupMember(keyed: seq<Entry<string>>, e: Entry<string>)
    requires e in GroupBy(keyed)
    ensures HasKey(keyed, e.key) && e.amount == SumFor(keyed, e.key)
  {
    var g := GroupBy(keyed);
    var m :| 0 <= m < |g| && g[m] == e;
    assert HasKey(g, e.key);
  }

  /** Each ranked group is a non-aggregate country holding the sum of its values,
      every non-aggregate country is ranked exactly once, and the groups come
      largest first. */
  lemma RankedGroupsSpec(columns: seq<string>, cm: ColumnMap, recs: seq<Rec>)
    ensures var keyed := Keyed(columns, recs, cm.country);
            var g := RankedGroups(columns, cm, recs);
            (forall i, j :: 0 <= i < j < |g| ==> g[i].amount >= g[j].amount)
            && DistinctKeys(g)
            && (forall k :: HasKey(g, k) <==> HasKey(keyed, k) && !Aggregate(k))
            && forall i :: 0 <= i < |g| ==>
                 !Aggregate(g[i].key) && HasKey(keyed, g[i].key) && g[i].amount == SumFor(keyed, g[i].key)
  {
    var keyed := Keyed(columns, recs, cm.country);
    var grouped := GroupBy(keyed);
    var kept := Filter(grouped, NotAggregate);
    var g := Descending(kept);
    forall i | 0 <= i < |g|
      ensures !Aggregate(g[i].key) && HasKey(keyed, g[i].key) && g[i].amount == SumFor(keyed, g[i].key)
    {
      assert g[i] in multiset(kept);
      assert g[i] in kept;
      GroupMember(keyed, g[i]);
    }
    FilterDistinct(grouped, NotAggregate);
    DistinctKeysPerm(kept, g);
    forall k ensures HasKey(g, k) <==> HasKey(keyed, k) && !Aggregate(k) {
      HasKeyPerm(kept, g, k);
      FilterHasKey(grouped, NotAggregate, k);
    }
  }

  /** The group a non-aggregate country of the rows forms survives the filter. */
  lemma KeptGroup(keyed: seq<Entry<string>>, k: string)
    requires HasKey(keyed, k) && !Aggregate(k)
    ensures Entry(k, SumFor(keyed, k)) in Filter(GroupBy(keyed), NotAggregate)
  {
    var g := GroupBy(keyed);
    var i :| 0 <= i < |g| && g[i].key == k;
    assert g[i] in g;
  }

  /** `head(top_n)` of the ranked groups: distinct countries, `top_n` of them when
      there are that many, and no country left out outweighs a kept one. */
  lemma RankedTop(columns: seq<string>, cm: ColumnMap, recs: seq<Rec>, topN: int)
    ensures var keyed := Keyed(columns, recs, cm.country);
            var g := RankedGroups(columns, cm, recs);
            var top := Take(g, topN);
            DistinctKeys(top)
            && (topN >= 0 ==> |top| == if topN < |g| then topN else |g|)
            && (topN >= |g| ==> forall k :: HasKey(keyed, k) && !Aggregate(k) ==> HasKey(top, k))
            && (forall k :: HasKey(keyed, k) && !Aggregate(k) && !HasKey(top, k) ==>
                  forall i :: 0 <= i < |top| ==> SumFor(keyed, k) <= top[i].amount)
  {
    var keyed := Keyed(columns, recs, cm.country);
    var kept := Filter(GroupBy(keyed), NotAggregate);
    var g := RankedGroups(columns, cm, recs);
    var top := Take(g, topN);
    FilterDistinct(GroupBy(keyed), NotAggregate);
    TopOfDescending(kept, topN);
    forall k | HasKey(keyed, k) && !Aggregate(k)
      ensures topN >= |g| ==> HasKey(top, k)
      ensures !HasKey(top, k) ==> forall i :: 0 <= i < |top| ==> SumFor(keyed, k) <= top[i].amount
    {
      KeptGroup(keyed, k);
      if topN >= |g| {
        RankedGroupsSpec(columns, cm, recs);
        HasKeyPerm(kept, top, k);
        assert HasKey(kept, k) by { assert Entry(k, SumFor(keyed, k)) in kept; }
      }
    }
  }

  datatype RankEntry = RankEntry(rank: int, country: string, quantity: real, sharePercent: real)

  datatype Ranking = Ranking(commodity: string, year: Option<int>, statisticType: string,
                             units: Option<string>, totalQuantity: real, rankings: seq<RankEntry>)

  /** `(quantity / total) * 100 if total else 0.0`. */
  function Share(q: real, total: real): real {
    if total != 0.0 then q / total * 100.0 else 0.0
  }

  /** The ranking rows for the kept groups, ranked from 1. */
  function RankEntries(g: seq<Entry<string>>, total: real): (r: seq<RankEntry>)
    ensures |r| == |g|
  {
    seq(|g|, i requires 0 <= i < |g| => RankEntry(i + 1, g[i].key, g[i].amount, Share(g[i].amount, total)))
  }

  /** The Production rows with a parsed year and value that the ranking considers. */
  function RankingRecs(df: Frame, cm: ColumnMap, commodity: string, statisticType: string): seq<Rec> {
    ProductionRows(df.columns, cm, Parsed(df.columns, cm, Filtered(df, cm, commodity, "", statisticType).rows))
  }

  /** Where the ranking stands before its loop: finished with an empty answer, or
      holding the year, that year's rows and the ranked groups. */
  datatype RankingStage = Empty(year: Option<int>) | Groups(y: int, inYear: seq<Rec>, g: seq<Entry<string>>)

  function StageOf(df: Frame, cm: ColumnMap, commodity: string, year: Option<int>,
                   statisticType: string): RankingStage
  {
    var recs := RankingRecs(df, cm, commodity, statisticType);
    if Filtered(df, cm, commodity, "", statisticType).rows == [] || recs == [] then Empty(year)
    else
      var y := if year.Some? then year.value else Max(Years(recs));
      var inYear := InYear(recs, y);
      if inYear == [] then Empty(Some(y))
      else Groups(y, inYear, RankedGroups(df.columns, cm, inYear))
  }

  /** What `get_country_ranking` returns. */
  function RankingOf(df: Frame, cm: ColumnMap, commodity: string, year: Option<int>,
                     statisticType: string, topN: int): Ranking
  {
    match StageOf(df, cm, commodity, year, statisticType)
    case Empty(y) => Ranking(commodity, y, statisticType, None, 0.0, [])
    case Groups(y, inYear, g) =>
      var total := Sum(Amounts(g));
      Ranking(commodity, Some(y), statisticType, Units(df.columns, cm, inYear), total,
              RankEntries(Take(g, topN), total))
  }

  /** `get_country_ranking` on a loaded table, appending each ranking row with
      `len(rankings) + 1` as its rank. */
  method RankCountries(df: Frame, cm: ColumnMap, commodity: string, year: Option<int>,
                       statisticType: string, topN: int) returns (r: Ranking)
    ensures r == RankingOf(df, cm, commodity, year, statisticType, topN)
  {
    var stage := StageOf(df, cm, commodity, year, statisticType);
    if stage.Empty? {
      return Ranking(commodity, stage.year, statisticType, None, 0.0, []);
    }
    var total := Sum(Amounts(stage.g));
    var rankings := NumberRankings(Take(stage.g, topN), total);
    r := Ranking(commodity, Some(stage.y), statisticType, Units(df.columns, cm, stage.inYear), total, rankings);
  }

  lemma RankEntriesSnoc(g: seq<Entry<string>>, i: int, total: real)
    requires 0 <= i < |g|
    ensures RankEntries(g[..i + 1], total)
            == RankEntries(g[..i], total) + [RankEntry(i + 1, g[i].key, g[i].amount, Share(g[i].amount, total))]
  {
  }

  /** The ranking loop: each group is appended with `len(rankings) + 1` as its rank. */
  method NumberRankings(top: seq<Entry<string>>, total: real) returns (rankings: seq<RankEntry>)
    ensures rankings == RankEntries(top, total)
  {
    rankings := [];
    for i := 0 to |top|
      invariant rankings == RankEntries(top[..i], total)
    {
      RankEntriesSnoc(top, i, total);
      rankings := rankings + [RankEntry(|rankings| + 1, top[i].key, top[i].amount, Share(top[i].amount, total))];
    }
    assert top[..|top|] == top;
  }

  /** Some ranking row names country `k`. */
  predicate Listed(rs: seq<RankEntry>, k: string) {
    exists i :: 0 <= i < |rs| && rs[i].country == k
  }

  lemma ListedRankEntries(top: seq<Entry<string>>, total: real, k: string)
    ensures Listed(RankEntries(top, total), k) <==> HasKey(top, k)
  {
    var e := RankEntries(top, total);
    if HasKey(top, k) {
      var i :| 0 <= i < |top| && top[i].key == k;
      assert e[i].country == k;
    }
    if Listed(e, k) {
      var i :| 0 <= i < |e| && e[i].country == k;
      assert top[i].key == k;
    }
  }

  /** The ranking rows of the top groups, in the groups' terms. */
  lemma RankedEntries(columns: seq<string>, cm: ColumnMap, inYear: seq<Rec>, topN: int, total: real)
    ensures var keyed := Keyed(columns, inYear, cm.country);
            var e := RankEntries(Take(RankedGroups(columns, cm, inYear), topN), total);
            (topN >= 0 ==> |e| <= topN)
            && (forall i :: 0 <= i < |e| ==> e[i].rank == i + 1 && !Aggregate(e[i].country))
            && (forall i, j :: 0 <= i < j < |e| ==> e[i].quantity >= e[j].quantity)
            && (forall i, j :: 0 <= i < j < |e| ==> e[i].country != e[j].country)
            && (forall k :: HasKey(keyed, k) && !Aggregate(k) && !Listed(e, k) ==>
                  forall i :: 0 <= i < |e| ==> SumFor(keyed, k) <= e[i].quantity)
            && (topN >= 0 ==> |e| == topN || forall k :: HasKey(keyed, k) && !Aggregate(k) ==> Listed(e, k))
  {
    RankedTop(columns, cm, inYear, topN);
    RankedGroupsSpec(columns, cm, inYear);
    NumberedTop(RankedGroups(columns, cm, inYear), Keyed(columns, inYear, cm.country), topN, total);
  }

  /** The ranking rows of the first `topN` ranked groups, in the groups' terms. */
  lemma NumberedTop(g: seq<Entry<string>>, keyed: seq<Entry<string>>, topN: int, total: real)
    requires forall i, j :: 0 <= i < j < |g| ==> g[i].amount >= g[j].amount
    requires forall i :: 0 <= i < |g| ==> !Aggregate(g[i].key)
    requires var top := Take(g, topN);
             DistinctKeys(top)
             && (topN >= 0 ==> |top| == if topN < |g| then topN else |g|)
             && (topN >= |g| ==> forall k :: HasKey(keyed, k) && !Aggregate(k) ==> HasKey(top, k))
             && (forall k :: HasKey(keyed, k) && !Aggregate(k) && !HasKey(top, k) ==>
                   forall i :: 0 <= i < |top| ==> SumFor(keyed, k) <= top[i].amount)
    ensures var e := RankEntries(Take(g, topN), total);
            (topN >= 0 ==> |e| <= topN)
            && (forall i :: 0 <= i < |e| ==> e[i].rank == i + 1 && !Aggregate(e[i].country))
            && (forall i, j :: 0 <= i < j < |e| ==> e[i].quantity >= e[j].quantity)
            && (forall i, j :: 0 <= i < j < |e| ==> e[i].country != e[j].country)
            && (forall k :: HasKey(keyed, k) && !Aggregate(k) && !Listed(e, k) ==>
                  forall i :: 0 <= i < |e| ==> SumFor(keyed, k) <= e[i].quantity)
            && (topN >= 0 ==> |e| == topN || forall k :: HasKey(keyed, k) && !Aggregate(k) ==> Listed(e, k))
  {
    var top := Take(g, topN);
    var e := RankEntries(top, total);
    forall k {
      ListedRankEntries(top, total, k);
    }
    forall i, j | 0 <= i < j < |e| ensures e[i].quantity >= e[j].quantity && e[i].country != e[j].country {
      assert e[i].quantity == g[i].amount && e[j].quantity == g[j].amount;
      assert e[i].country == top[i].key && e[j].country == top[j].key;
    }
    forall i | 0 <= i < |e| ensures e[i].rank == i + 1 && !Aggregate(e[i].country) {
      assert e[i].country == g[i].key;
    }
  }

  /** Ranks run 1, 2, ... with no gap, quantities never increase down the list,
      no aggregate row is ranked and no country twice. The rows are the largest
      countries of the year: `top_n` of them, or every non-aggregate country when
      there are fewer, and no country left out has a larger sum than a listed one. */
  lemma RankingOrder(df: Frame, cm: ColumnMap, commodity: string, year: Option<int>,
                     statisticType: string, topN: int)
    ensures var r := RankingOf(df, cm, commodity, year, statisticType, topN);
            (topN >= 0 ==> |r.rankings| <= topN)
            && (forall i :: 0 <= i < |r.rankings| ==> r.rankings[i].rank == i + 1)
            && (forall i, j :: 0 <= i < j < |r.rankings| ==> r.rankings[i].quantity >= r.rankings[j].quantity)
            && (forall i :: 0 <= i < |r.rankings| ==> !Aggregate(r.rankings[i].country))
            && (forall i, j :: 0 <= i < j < |r.rankings| ==> r.rankings[i].country != r.rankings[j].country)
            && (r.year.Some? ==>
                  var keyed := Keyed(df.columns, InYear(RankingRecs(df, cm, commodity, statisticType), r.year.value),
                                     cm.country);
                  (forall k :: HasKey(keyed, k) && !Aggregate(k) && !Listed(r.rankings, k) ==>
                     forall i :: 0 <= i < |r.rankings| ==> SumFor(keyed, k) <= r.rankings[i].quantity)
                  && (topN >= 0 ==> |r.rankings| == topN
                                    || forall k :: HasKey(keyed, k) && !Aggregate(k) ==> Listed(r.rankings, k)))
  {
    var stage := StageOf(df, cm, commodity, year, statisticType);
    if stage.Groups? {
      var r := RankingOf(df, cm, commodity, year, statisticType, topN);
      var total := Sum(Amounts(stage.g));
      assert r.year == Some(stage.y) && r.rankings == RankEntries(Take(stage.g, topN), total);
      assert stage.inYear == InYear(RankingRecs(df, cm, commodity, statisticType), stage.y);
      RankedEntries(df.columns, cm, stage.inYear, topN, total);
    } else {
      StageEmptyYear(df, cm, commodity, year, statisticType);
    }
  }

  /** A ranking that stops early echoes a year in which no row is left. */
  lemma StageEmptyYear(df: Frame, cm: ColumnMap, commodity: string, year: Option<int>, statisticType: string)
    ensures var stage := StageOf(df, cm, commodity, year, statisticType);
            stage.Empty? && stage.year.Some? ==> InYear(RankingRecs(df, cm, commodity, statisticType), stage.year.value) == []
  {
  }

  /** Every ranked country is a non-aggregate country of the chosen year, its
      quantity is the sum of that country's values there, and every share is the
      quantity's percentage of the total over ALL non-aggregate countries of that
      year, not just the ones returned (0 when that total is 0). */
  lemma RankingShares(df: Frame, cm: ColumnMap, commodity: string, year: Option<int>,
                      statisticType: string, topN: int)
    ensures var r := RankingOf(df, cm, commodity, year, statisticType, topN);
            r.rankings != [] ==>
              r.year.Some?
              && var inYear := InYear(RankingRecs(df, cm, commodity, statisticType), r.year.value);
                 var keyed := Keyed(df.columns, inYear, cm.country);
                 r.totalQuantity == Sum(Amounts(RankedGroups(df.columns, cm, inYear)))
                 && forall i :: 0 <= i < |r.rankings| ==>
                      HasKey(keyed, r.rankings[i].country)
                      && r.rankings[i].quantity == SumFor(keyed, r.rankings[i].country)
                      && r.rankings[i].sharePercent == Share(r.rankings[i].quantity, r.totalQuantity)
  {
    var stage := StageOf(df, cm, commodity, year, statisticType);
    if stage.Groups? {
      var r := RankingOf(df, cm, commodity, year, statisticType, topN);
      var inYear := InYear(RankingRecs(df, cm, commodity, statisticType), stage.y);
      assert stage.inYear == inYear && stage.g == RankedGroups(df.columns, cm, inYear);
      var keyed := Keyed(df.columns, inYear, cm.country);
      var top := Take(stage.g, topN);
      var total := Sum(Amounts(stage.g));
      assert r.year == Some(stage.y) && r.totalQuantity == total && r.rankings == RankEntries(top, total);
      RankedGroupsSpec(df.columns, cm, inYear);
      forall i | 0 <= i < |r.rankings|
        ensures HasKey(keyed, r.rankings[i].country)
                && r.rankings[i].quantity == SumFor(keyed, r.rankings[i].country)
                && r.rankings[i].sharePercent == Share(r.rankings[i].quantity, r.totalQuantity)
      {
        assert top[i] == stage.g[i];
      }
    }
  }

  function SharePercents(r: seq<RankEntry>): seq<real> {
    seq(|r|, i requires 0 <= i < |r| => r[i].sharePercent)
  }

  lemma RankEntriesShares(g: seq<Entry<string>>, total: real)
    requires total != 0.0
    ensures SharePercents(RankEntries(g, total)) == Shares(Amounts(g), total)
  {
  }

  /** When every non-aggregate country fits in `top_n` and the total is not 0,
      the shares add up to 100. */
  lemma RankingSharesSumTo100(df: Frame, cm: ColumnMap, commodity: string, year: Option<int>,
                              statisticType: string, topN: int)
    requires StageOf(df, cm, commodity, year, statisticType).Groups?
    requires topN >= |StageOf(df, cm, commodity, year, statisticType).g|
    requires RankingOf(df, cm, commodity, year, statisticType, topN).totalQuantity != 0.0
    ensures Sum(SharePercents(RankingOf(df, cm, commodity, year, statisticType, topN).rankings)) == 100.0
  {
    var g := StageOf(df, cm, commodity, year, statisticType).g;
    assert Take(g, topN) == g;
    RankEntriesShares(g, Sum(Amounts(g)));
    SharesOfWholeSumTo100(Amounts(g));
  }

  /** An empty selection ranks nothing and totals 0, echoing the requested year. */
  lemma RankingEmpty(df: Frame, cm: ColumnMap, commodity: string, year: Option<int>,
                     statisticType: string, topN: int)
    requires Filtered(df, cm, commodity, "", statisticType).rows == []
    ensures RankingOf(df, cm, commodity, year, statisticType, topN)
            == Ranking(commodity, year, statisticType, None, 0.0, [])
  {
  }

  /** Without a year, the ranking is for the latest parsed Production year. */
  lemma RankingDefaultYear(df: Frame, cm: ColumnMap, commodity: string, statisticType: string, topN: int)
    ensures var r := RankingOf(df, cm, commodity, None, statisticType, topN);
            var recs := RankingRecs(df, cm, commodity, statisticType);
            (recs != [] ==> r.year == Some(Max(Years(recs))))
            && (r.year.Some? ==> (exists x :: x in recs && x.year == r.year.value)
                                 && forall x :: x in recs ==> x.year <= r.year.value)
  {
    var recs := RankingRecs(df, cm, commodity, statisticType);
    if recs != [] {
      MaxYear(recs);
    }
  }

  datatype Point = Point(year: int, quantity: real)

  datatype Series = Series(commodity: string, country: string, statisticType: string,
                           units: Option<string>, series: seq<Point>)

  function YearKeyed(recs: seq<Rec>): seq<Entry<int>> {
    seq(|recs|, i requires 0 <= i < |recs| => Entry(recs[i].year, recs[i].value))
  }

  predicate HasPoint(s: seq<Point>, y: int) {
    exists i :: 0 <= i < |s| && s[i].year == y
  }

  function SeriesRecs(df: Frame, cm: ColumnMap, commodity: string, country: string,
                      statisticType: string): seq<Rec>
  {
    Parsed(df.columns, cm, Filtered(df, cm, commodity, country, statisticType).rows)
  }

  /** `get_time_series`. */
  function TimeSeries(df: Frame, cm: ColumnMap, commodity: string, country: string,
                      statisticType: string): Series
  {
    var recs := SeriesRecs(df, cm, commodity, country, statisticType);
    var g := GroupByInt(YearKeyed(recs));
    Series(commodity, country, statisticType, Units(df.columns, cm, recs),
           seq(|g|, i requires 0 <= i < |g| => Point(g[i].key, g[i].amount)))
  }

  /** One point per distinct parsed year, years strictly ascending, each holding
      the sum of that year's values. */
  lemma TimeSeriesSpec(df: Frame, cm: ColumnMap, commodity: string, country: string, statisticType: string)
    ensures var recs := SeriesRecs(df, cm, commodity, country, statisticType);
            var s := TimeSeries(df, cm, commodity, country, statisticType).series;
            (forall i, j :: 0 <= i < j < |s| ==> s[i].year < s[j].year)
            && (forall y :: HasPoint(s, y) <==> exists x :: x in recs && x.year == y)
            && forall i :: 0 <= i < |s| ==> s[i].quantity == SumFor(YearKeyed(recs), s[i].year)
  {
    var recs := SeriesRecs(df, cm, commodity, country, statisticType);
    var keyed := YearKeyed(recs);
    var g := GroupByInt(keyed);
    var s := TimeSeries(df, cm, commodity, country, statisticType).series;
    assert forall i :: 0 <= i < |g| ==> Keys(g)[i] == s[i].year;
    forall y ensures HasPoint(s, y) <==> exists x :: x in recs && x.year == y {
      if HasPoint(s, y) {
        var i :| 0 <= i < |s| && s[i].year == y;
        assert g[i].key == y;
        assert HasKey(keyed, y);
        var j :| 0 <= j < |keyed| && keyed[j].key == y;
        assert recs[j] in recs;
      }
      if exists x :: x in recs && x.year == y {
        var x :| x in recs && x.year == y;
        var j :| 0 <= j < |recs| && recs[j] == x;
        assert keyed[j].key == y;
        assert HasKey(g, y);
        var i :| 0 <= i < |g| && g[i].key == y;
        assert s[i].year == y;
      }
    }
  }

  datatype CommodityAmount = CommodityAmount(commodity: string, quantity: real, units: Option<string>)

  datatype Profile = Profile(country: string, year: int, statisticType: string,
                             commodities: seq<CommodityAmount>)

  function ProfileRecs(df: Frame, cm: ColumnMap, country: string, statisticType: string): seq<Rec> {
    Parsed(df.columns, cm, Filtered(df, cm, "", country, statisticType).rows)
  }

  /** The year asked for, or else the latest year among `recs`. */
  function ChosenYear(recs: seq<Rec>, year: Option<int>): int
    requires recs != []
  {
    if year.Some? then year.value else Max(Years(recs))
  }

  /** The largest `limit` per-commodity sums of a year's rows. */
  function TopCommodities(columns: seq<string>, cm: ColumnMap, inYear: seq<Rec>, limit: int): seq<Entry<string>> {
    Take(Descending(GroupBy(Keyed(columns, inYear, cm.commodity))), limit)
  }

  /** The profile rows, each carrying the same units. */
  function CommodityAmounts(top: seq<Entry<string>>, units: Option<string>): (c: seq<CommodityAmount>)
    ensures |c| == |top|
    ensures forall i :: 0 <= i < |top| ==> c[i] == CommodityAmount(top[i].key, top[i].amount, units)
  {
    seq(|top|, i requires 0 <= i < |top| => CommodityAmount(top[i].key, top[i].amount, units))
  }

  /** `get_country_profile`. */
  function CountryProfile(df: Frame, cm: ColumnMap, country: string, year: Option<int>,
                          statisticType: string, limit: int): Profile
  {
    var recs := ProfileRecs(df, cm, country, statisticType);
    if recs == [] then Profile(country, year.GetOr(0), statisticType, [])
    else
      var y := ChosenYear(recs, year);
      var inYear := InYear(recs, y);
      Profile(country, y, statisticType,
              CommodityAmounts(TopCommodities(df.columns, cm, inYear, limit), Units(df.columns, cm, inYear)))
  }

  /** The top commodities come largest first, each a distinct commodity of the
      rows holding the sum of its values: `limit` of them, or every commodity when
      there are fewer, and no commodity left out has a larger sum than a kept one. */
  lemma TopCommoditiesSpec(columns: seq<string>, cm: ColumnMap, inYear: seq<Rec>, limit: int)
    ensures var keyed := Keyed(columns, inYear, cm.commodity);
            var top := TopCommodities(columns, cm, inYear, limit);
            (limit >= 0 ==> |top| <= limit)
            && (forall i, j :: 0 <= i < j < |top| ==> top[i].amount >= top[j].amount)
            && (forall i :: 0 <= i < |top| ==> HasKey(keyed, top[i].key) && top[i].amount == SumFor(keyed, top[i].key))
            && DistinctKeys(top)
            && (limit >= 0 ==> |top| == limit || forall k :: HasKey(keyed, k) ==> HasKey(top, k))
            && (forall k :: HasKey(keyed, k) && !HasKey(top, k) ==>
                  forall i :: 0 <= i < |top| ==> SumFor(keyed, k) <= top[i].amount)
  {
    TopOfGroups(Keyed(columns, inYear, cm.commodity), limit);
  }

  /** Some profile entry names commodity `k`. */
  predicate Named(c: seq<CommodityAmount>, k: string) {
    exists i :: 0 <= i < |c| && c[i].commodity == k
  }

  /** The profile entries in the top commodities' terms. */
  lemma NamedTop(columns: seq<string>, cm: ColumnMap, inYear: seq<Rec>, limit: int, units: Option<string>)
    ensures var keyed := Keyed(columns, inYear, cm.commodity);
            var c := CommodityAmounts(TopCommodities(columns, cm, inYear, limit), units);
            (limit >= 0 ==> |c| <= limit)
            && (forall i, j :: 0 <= i < j < |c| ==> c[i].quantity >= c[j].quantity)
            && (forall i :: 0 <= i < |c| ==>
                  c[i].units == units && HasKey(keyed, c[i].commodity) && c[i].quantity == SumFor(keyed, c[i].commodity))
            && (forall i, j :: 0 <= i < j < |c| ==> c[i].commodity != c[j].commodity)
            && (limit >= 0 ==> |c| == limit || forall k :: HasKey(keyed, k) ==> Named(c, k))
            && (forall k :: HasKey(keyed, k) && !Named(c, k) ==>
                  forall i :: 0 <= i < |c| ==> SumFor(keyed, k) <= c[i].quantity)
  {
    TopCommoditiesSpec(columns, cm, inYear, limit);
    NamedOfTop(TopCommodities(columns, cm, inYear, limit), Keyed(columns, inYear, cm.commodity), limit, units);
  }

  /** What holds of the top commodities holds of their profile entries. */
  lemma NamedOfTop(top: seq<Entry<string>>, keyed: seq<Entry<string>>, limit: int, units: Option<string>)
    requires limit >= 0 ==> |top| <= limit
    requires forall i, j :: 0 <= i < j < |top| ==> top[i].amount >= top[j].amount
    requires forall i :: 0 <= i < |top| ==> HasKey(keyed, top[i].key) && top[i].amount == SumFor(keyed, top[i].key)
    requires DistinctKeys(top)
    requires limit >= 0 ==> |top| == limit || forall k :: HasKey(keyed, k) ==> HasKey(top, k)
    requires forall k :: HasKey(keyed, k) && !HasKey(top, k) ==>
               forall i :: 0 <= i < |top| ==> SumFor(keyed, k) <= top[i].amount
    ensures var c := CommodityAmounts(top, units);
            (limit >= 0 ==> |c| <= limit)
            && (forall i, j :: 0 <= i < j < |c| ==> c[i].quantity >= c[j].quantity)
            && (forall i :: 0 <= i < |c| ==>
                  c[i].units == units && HasKey(keyed, c[i].commodity) && c[i].quantity == SumFor(keyed, c[i].commodity))
            && (forall i, j :: 0 <= i < j < |c| ==> c[i].commodity != c[j].commodity)
            && (limit >= 0 ==> |c| == limit || forall k :: HasKey(keyed, k) ==> Named(c, k))
            && (forall k :: HasKey(keyed, k) && !Named(c, k) ==>
                  forall i :: 0 <= i < |c| ==> SumFor(keyed, k) <= c[i].quantity)
  {
    var c := CommodityAmounts(top, units);
    forall k ensures Named(c, k) <==> HasKey(top, k) {
      if HasKey(top, k) {
        var i :| 0 <= i < |top| && top[i].key == k;
        assert c[i].commodity == k;
      }
    }
  }

  /** With no parsed rows, the profile has the given year (or 0) and no
      commodities; otherwise the year defaults to the latest one, and the
      commodities are that year's largest per-commodity sums, largest first, each
      commodity once: `limit` of them, or all when there are fewer, none left out
      outweighing a kept one, all carrying the units of that year's rows. */
  lemma CountryProfileSpec(df: Frame, cm: ColumnMap, country: string, year: Option<int>,
                           statisticType: string, limit: int)
    ensures var recs := ProfileRecs(df, cm, country, statisticType);
            var r := CountryProfile(df, cm, country, year, statisticType, limit);
            var c := r.commodities;
            (recs == [] ==> r.year == year.GetOr(0) && c == [])
            && (recs != [] && year.None? ==> (exists x :: x in recs && x.year == r.year)
                                             && forall x :: x in recs ==> x.year <= r.year)
            && (year.Some? ==> r.year == year.value)
            && (limit >= 0 ==> |c| <= limit)
            && (forall i, j :: 0 <= i < j < |c| ==> c[i].quantity >= c[j].quantity)
            && (forall i :: 0 <= i < |c| ==>
                  var keyed := Keyed(df.columns, InYear(recs, r.year), cm.commodity);
                  c[i].units == Units(df.columns, cm, InYear(recs, r.year))
                  && HasKey(keyed, c[i].commodity)
                  && c[i].quantity == SumFor(keyed, c[i].commodity))
            && (forall i, j :: 0 <= i < j < |c| ==> c[i].commodity != c[j].commodity)
            && (recs != [] ==>
                  var keyed := Keyed(df.columns, InYear(recs, r.year), cm.commodity);
                  (limit >= 0 ==> |c| == limit || forall k :: HasKey(keyed, k) ==> Named(c, k))
                  && (forall k :: HasKey(keyed, k) && !Named(c, k) ==>
                        forall i :: 0 <= i < |c| ==> SumFor(keyed, k) <= c[i].quantity))
  {
    var recs := ProfileRecs(df, cm, country, statisticType);
    if recs != [] {
      if year.None? { MaxYear(recs); }
      var y := ChosenYear(recs, year);
      var inYear := InYear(recs, y);
      var units := Units(df.columns, cm, inYear);
      var r := CountryProfile(df, cm, country, year, statisticType, limit);
      assert r.year == y && r.commodities == CommodityAmounts(TopCommodities(df.columns, cm, inYear, limit), units);
      NamedTop(df.columns, cm, inYear, limit, units);
    }
  }

  /** Why a client call fails: the table lacks required columns, or an earlier
      failed load left the table cached without a column map (the `assert col`). */
  datatype McsError = MissingColumns(roles: seq<string>) | NoColumnMap

  /** The table as `_load_dataframe` prepares it: headers normalised, and a wide
      world-production table reshaped to long form. */
  function Prepared(raw: Frame): Frame {
    var columns := seq(|raw.columns|, i requires 0 <= i < |raw.columns| => NormalizeCol(raw.columns[i]));
    var df := Frame(columns, raw.rows);
    if IsWide(columns) then Reshaped(df) else df
  }

  /** The column map after a first load of `table`: the inferred one, or the
      previous one when inference fails. */
  function InferredOr(table: Frame, previous: Option<ColumnMap>): Option<ColumnMap> {
    match InferColumns(table.columns)
    case Ok(cm) => Some(cm)
    case Err(_) => previous
  }

  /** `USGSMCSClient`: the CSV it would download is the `source` it is built with;
      `df` and `colMap` are the `_df` / `_col_map` cache. */
  class McsClient {
    const source: Frame
    var df: Option<Frame>
    var colMap: Option<ColumnMap>

    constructor(source: Frame)
      ensures this.source == source && df.None? && colMap.None?
    {
      this.source := source;
      df := None;
      colMap := None;
    }

    /** `_load_dataframe`: the cached table if there is one; otherwise the table is
      prepared and cached, and then the column map is inferred, which may fail
      after the table is already cached. */
    method LoadDataframe() returns (r: Result<Frame, McsError>)
      modifies this
      ensures old(df).Some? ==> r == Ok(old(df).value) && df == old(df) && colMap == old(colMap)
      ensures old(df).None? ==>
                df == Some(Prepared(source))
                && match InferColumns(Prepared(source).columns)
                   case Ok(cm) => colMap == Some(cm) && r == Ok(Prepared(source))
                   case Err(missing) => colMap == old(colMap) && r == Err(MissingColumns(missing))
    {
      if df.Some? {
        return Ok(df.value);
      }
      var columns := seq(|source.columns|, i requires 0 <= i < |source.columns| => NormalizeCol(source.columns[i]));
      var table := Frame(columns, source.rows);
      if IsWide(columns) {
        table := ReshapeWorldProduction(table);
      }
      df := Some(table);
      var inferred := InferColumns(table.columns);
      match inferred {
        case Ok(cm) =>
          colMap := Some(cm);
          r := Ok(table);
        case Err(missing) =>
          r := Err(MissingColumns(missing));
      }
    }

    /** The loaded table with its column map, or why the query cannot run. */
    method Loaded() returns (r: Result<(Frame, ColumnMap), McsError>)
      modifies this
      ensures old(df).Some? ==> df == old(df) && colMap == old(colMap)
      ensures old(df).None? ==> df == Some(Prepared(source)) && colMap == InferredOr(Prepared(source), old(colMap))
      ensures r.Ok? ==> df == Some(r.value.0) && colMap == Some(r.value.1)
      ensures old(df).Some? && old(colMap).None? ==> r == Err(NoColumnMap)
      ensures old(df).None? && InferColumns(Prepared(source).columns).Err? ==>
                r == Err(MissingColumns(InferColumns(Prepared(source).columns).error))
      ensures old(df).Some? && old(colMap).Some? ==> r == Ok((old(df).value, old(colMap).value))
      ensures old(df).None? && InferColumns(Prepared(source).columns).Ok? ==>
                r == Ok((Prepared(source), InferColumns(Prepared(source).columns).value))
    {
      var loaded := LoadDataframe();
      if loaded.Err? {
        return Err(loaded.error);
      }
      if colMap.None? {
        return Err(NoColumnMap);
      }
      return Ok((loaded.value, colMap.value));
    }

    method ListCommodities() returns (r: Result<seq<string>, McsError>)
      modifies this
      ensures old(df).Some? ==> df == old(df) && colMap == old(colMap)
      ensures old(df).None? ==> df == Some(Prepared(source)) && colMap == InferredOr(Prepared(source), old(colMap))
      ensures r.Ok? ==> df.Some? && colMap.Some? && r.value == DistinctValues(df.value, colMap.value.commodity)
      ensures (old(df).Some? && old(colMap).Some?) || (old(df).None? && InferColumns(Prepared(source).columns).Ok?) ==> r.Ok?
    {
      var t := Loaded();
      if t.Err? { return Err(t.error); }
      return Ok(DistinctValues(t.value.0, t.value.1.commodity));
    }

    method ListCountries() returns (r: Result<seq<string>, McsError>)
      modifies this
      ensures old(df).Some? ==> df == old(df) && colMap == old(colMap)
      ensures old(df).None? ==> df == Some(Prepared(source)) && colMap == InferredOr(Prepared(source), old(colMap))
      ensures r.Ok? ==> df.Some? && colMap.Some? && r.value == DistinctValues(df.value, colMap.value.country)
      ensures (old(df).Some? && old(colMap).Some?) || (old(df).None? && InferColumns(Prepared(source).columns).Ok?) ==> r.Ok?
    {
      var t := Loaded();
      if t.Err? { return Err(t.error); }
      return Ok(DistinctValues(t.value.0, t.value.1.country));
    }

    method GetCountryRanking(commodity: string, year: Option<int>, statisticType: string, topN: int)
      returns (r: Result<Ranking, McsError>)
      modifies this
      ensures old(df).Some? ==> df == old(df) && colMap == old(colMap)
      ensures old(df).None? ==> df == Some(Prepared(source)) && colMap == InferredOr(Prepared(source), old(colMap))
      ensures r.Ok? ==> df.Some? && colMap.Some?
                        && r.value == RankingOf(df.value, colMap.value, commodity, year, statisticType, topN)
      ensures (old(df).Some? && old(colMap).Some?) || (old(df).None? && InferColumns(Prepared(source).columns).Ok?) ==> r.Ok?
    {
      var t := Loaded();
      if t.Err? { return Err(t.error); }
      var ranking := RankCountries(t.value.0, t.value.1, commodity, year, statisticType, topN);
      return Ok(ranking);
    }

    method GetTimeSeries(commodity: string, country: string, statisticType: string)
      returns (r: Result<Series, McsError>)
      modifies this
      ensures old(df).Some? ==> df == old(df) && colMap == old(colMap)
      ensures old(df).None? ==> df == Some(Prepared(source)) && colMap == InferredOr(Prepared(source), old(colMap))
      ensures r.Ok? ==> df.Some? && colMap.Some?
                        && r.value == TimeSeries(df.value, colMap.value, commodity, country, statisticType)
      ensures (old(df).Some? && old(colMap).Some?) || (old(df).None? && InferColumns(Prepared(source).columns).Ok?) ==> r.Ok?
    {
      var t := Loaded();
      if t.Err? { return Err(t.error); }
      return Ok(TimeSeries(t.value.0, t.value.1, commodity, country, statisticType));
    }

    method GetCountryProfile(country: string, year: Option<int>, statisticType: string, limit: int)
      returns (r: Result<Profile, McsError>)
      modifies this
      ensures old(df).Some? ==> df == old(df) && colMap == old(colMap)
      ensures old(df).None? ==> df == Some(Prepared(source)) && colMap == InferredOr(Prepared(source), old(colMap))
      ensures r.Ok? ==> df.Some? && colMap.Some?
                        && r.value == CountryProfile(df.value, colMap.value, country, year, statisticType, limit)
      ensures (old(df).Some? && old(colMap).Some?) || (old(df).None? && InferColumns(Prepared(source).columns).Ok?) ==> r.Ok?
    {
      var t := Loaded();
      if t.Err? { return Err(t.error); }
      return Ok(CountryProfile(t.value.0, t.value.1, country, year, statisticType, limit));
    }
  }
}
