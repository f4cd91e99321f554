/** The UN Comtrade tools: the reference-list filters, the record cap and mineral
    lookup, the commodity trade summary with shares, and the country trade
    profile. The Comtrade client's answers are inputs: lists of references and
    records, or a function standing for its queries. */
module ComtradeServer {
  import opened Strings
  import opened Seqs

  // ----- reference lists -----

  /** A reporter, partner or commodity reference: its code and its description
      (a missing description reads as ""). */
  datatype Reference = Reference(id: string, text: string)

  /** The search applies: Python's truthiness of the optional argument. */
  predicate Given(search: Option<string>) {
    search.Some? && search.value != ""
  }

  /** The test on a description: it contains `term` once lowercased. */
  function TextHas(term: string): Reference -> bool {
    (r: Reference) => Contains(Lower(r.text), term)
  }

  /** The entries a reference search keeps, in input order. */
  function Matching(refs: seq<Reference>, search: Option<string>): seq<Reference> {
    if Given(search) then Filter(refs, TextHas(Lower(search.value))) else refs
  }

  /** `list_reporters` and `list_partners`: the entries whose lowercased description
      contains the lowercased search term, in order, cut to `limit`. */
  function ListReferences(refs: seq<Reference>, search: Option<string>, limit: int): seq<Reference> {
    Take(Matching(refs, search), limit)
  }

  /** The listed entries are the first matching ones, in input order: `limit` of
      them, or all when there are fewer (for a non-negative limit). Each listed
      entry matches the term; and when the limit cuts nothing, every matching
      entry is there. */
  lemma ListReferencesSpec(refs: seq<Reference>, search: Option<string>, limit: int)
    ensures var r := ListReferences(refs, search, limit);
            var kept := Matching(refs, search);
            r == kept[..|r|]
            && (limit >= 0 ==> |r| == if limit < |kept| then limit else |kept|)
            && (forall x :: x in kept <==> x in refs && (Given(search) ==> Contains(Lower(x.text), Lower(search.value))))
            && (forall x :: x in r ==> x in refs && (Given(search) ==> Contains(Lower(x.text), Lower(search.value))))
            && (limit >= |refs| ==> forall x :: x in refs && (Given(search) ==> Contains(Lower(x.text), Lower(search.value))) ==> x in r)
  {
    var kept := Matching(refs, search);
    var r := ListReferences(refs, search, limit);
    assert forall x :: x in r ==> x in kept;
    if limit >= |refs| {
      assert r == kept;
    }
  }

  /** The HS levels the commodity list filters on. */
  predicate IsLevel(hsLevel: int) {
    hsLevel == 2 || hsLevel == 4 || hsLevel == 6
  }

  /** The commodity matches the search: in its description ignoring case, or in
      its code as written. */
  predicate CommodityMatches(c: Reference, term: string) {
    Contains(Lower(c.text), term) || Contains(c.id, term)
  }

  function OfLevel(hsLevel: int): Reference -> bool {
    (c: Reference) => |c.id| == hsLevel
  }

  function MatchesTerm(term: string): Reference -> bool {
    (c: Reference) => CommodityMatches(c, term)
  }

  /** The commodities both filters keep, in input order. */
  function CommodityHits(commodities: seq<Reference>, search: Option<string>, hsLevel: int): seq<Reference> {
    var leveled := if IsLevel(hsLevel) then Filter(commodities, OfLevel(hsLevel)) else commodities;
    if Given(search) then Filter(leveled, MatchesTerm(Lower(search.value))) else leveled
  }

  /** `list_commodities`: codes of the requested length when it is 2, 4 or 6, then
      the search, then the limit. */
  function ListCommodities(commodities: seq<Reference>, search: Option<string>, hsLevel: int, limit: int): seq<Reference> {
    Take(CommodityHits(commodities, search, hsLevel), limit)
  }

  /** An entry is kept exactly when its code has the requested length (when that
      is 2, 4 or 6) and it matches the search; the listed entries are the first
      kept ones, in input order: `limit` of them, or all when there are fewer
      (for a non-negative limit). */
  lemma ListCommoditiesSpec(commodities: seq<Reference>, search: Option<string>, hsLevel: int, limit: int)
    ensures var r := ListCommodities(commodities, search, hsLevel, limit);
            var hits := CommodityHits(commodities, search, hsLevel);
            r == hits[..|r|]
            && (limit >= 0 ==> |r| == if limit < |hits| then limit else |hits|)
            && (forall c :: c in hits <==>
                 c in commodities
                 && (IsLevel(hsLevel) ==> |c.id| == hsLevel)
                 && (Given(search) ==> CommodityMatches(c, Lower(search.value))))
            && (limit >= |commodities| ==> r == hits)
  {
  }

  /** Any other level leaves the list unfiltered by length. */
  lemma OtherLevelsIgnored(commodities: seq<Reference>, hsLevel: int, limit: int)
    requires !IsLevel(hsLevel)
    ensures ListCommodities(commodities, None, hsLevel, limit) == Take(commodities, limit)
  {
  }

  // ----- record cap and mineral lookup -----

  /** `min(max_records, 500)`. */
  function CapRecords(m: int): (r: int)
    ensures r <= 500 && r <= m
    ensures r == m || r == 500
  {
    if m < 500 then m else 500
  }

  /** One entry of the critical-mineral tables: key, HS codes and display name. */
  datatype Mineral = Mineral(key: string, codes: seq<string>, name: string)

  /** The two critical-mineral tables, which share their keys, in their order. */
  const Minerals: seq<Mineral> := [
    Mineral("lithium", ["282520", "283691", "850650"], "Lithium (Li)"),
    Mineral("cobalt", ["2605", "810520", "810590"], "Cobalt (Co)"),
    Mineral("hree", ["284690"], "Heavy Rare Earth Elements"),
    Mineral("lree", ["284610"], "Light Rare Earth Elements"),
    Mineral("rare_earth", ["2846"], "Rare Earth Elements (all)"),
    Mineral("graphite", ["250410", "250490"], "Graphite (Gr)"),
    Mineral("nickel", ["2604", "750210", "750220"], "Nickel (Ni)"),
    Mineral("manganese", ["2602", "811100"], "Manganese (Mn)"),
    Mineral("gallium", ["811292"], "Gallium (Ga)"),
    Mineral("germanium", ["811299"], "Germanium (Ge)")
  ]

  /** The table entry for a key. */
  function Find(table: seq<Mineral>, key: string): (r: Option<Mineral>)
    ensures r.Some? ==> r.value in table && r.value.key == key
    ensures r.None? ==> forall m :: m in table ==> m.key != key
  {
    if table == [] then None
    else if table[0].key == key then Some(table[0])
    else Find(table[1..], key)
  }

  /** The dictionary key for a mineral argument: lowercased, spaces turned into `_`. */
  function MineralKey(mineral: string): (k: string)
    ensures |k| == |mineral| && ' ' !in k && NoUpper(k)
    ensures forall i :: 0 <= i < |k| ==> k[i] == if mineral[i] == ' ' then '_' else LowerChar(mineral[i])
  {
    LowerIsLower(mineral);
    ReplaceCharRemoves(Lower(mineral), ' ', '_');
    ReplaceChar(Lower(mineral), ' ', '_')
  }

  /** What `get_critical_mineral_trade` reports besides the records. */
  datatype MineralQuery = MineralQuery(maxRecords: int, name: string, hsCodesQueried: seq<string>)

  /** The cap passed to the client, the display name (the argument itself for an
      unknown key) and the HS codes reported (none for an unknown key). */
  function CriticalMineralQuery(mineral: string, maxRecords: int): (q: MineralQuery)
    ensures q.maxRecords == CapRecords(maxRecords)
    ensures Find(Minerals, MineralKey(mineral)).None? ==> q.hsCodesQueried == [] && q.name == mineral
    ensures Find(Minerals, MineralKey(mineral)).Some? ==>
              var m := Find(Minerals, MineralKey(mineral)).value;
              m in Minerals && m.key == MineralKey(mineral) && q.hsCodesQueried == m.codes && q.name == m.name
  {
    match Find(Minerals, MineralKey(mineral))
    case Some(m) => MineralQuery(CapRecords(maxRecords), m.name, m.codes)
    case None => MineralQuery(CapRecords(maxRecords), mineral, [])
  }

  /** Case and spaces do not matter: "Rare Earth" asks for the rare-earth codes. */
  lemma RareEarthLookup()
    ensures CriticalMineralQuery("Rare Earth", 1000) == MineralQuery(500, "Rare Earth Elements (all)", ["2846"])
  {
    RareEarthKey();
    RareEarthFound();
  }

  lemma RareEarthKey()
    ensures MineralKey("Rare Earth") == "rare_earth"
  {
    var lowered := Lower("Rare Earth");
    assert lowered == "rare earth";
    assert ReplaceChar(lowered, ' ', '_') == "rare_earth";
  }

  lemma RareEarthFound()
    ensures Find(Minerals, "rare_earth") == Some(Mineral("rare_earth", ["2846"], "Rare Earth Elements (all)"))
  {
    var k := "rare_earth";
    assert Minerals[0].key != k && Minerals[1].key != k && Minerals[2].key != k && Minerals[3].key != k;
    assert Minerals[1..][1..][1..][1..] == Minerals[4..];
    assert Minerals[4].key == k;
  }

  // ----- get_commodity_trade_summary -----

  /** One trade record: the reporter's name, the commodity description and the
      trade value in USD, which may be missing. */
  datatype TradeRecord = TradeRecord(reporter: string, commodity: string, tradeValue: Option<real>)

  /** `if r.trade_value:`: present and non-zero. */
  predicate HasValue(r: TradeRecord) {
    r.tradeValue.Some? && r.tradeValue.value != 0.0
  }

  /** The (reporter, value) pairs of the records with a value, in order. */
  function ValueEntries(records: seq<TradeRecord>): (r: seq<Entry<string>>)
    ensures |r| <= |records|
  {
    if records == [] then []
    else
      var init := ValueEntries(records[..|records| - 1]);
      var last := records[|records| - 1];
      if HasValue(last) then init + [Entry(last.reporter, last.tradeValue.value)] else init
  }

  /** The commodity of the first record with a value. */
  function FirstCommodity(records: seq<TradeRecord>): Option<string> {
    if records == [] then None
    else if HasValue(records[0]) then Some(records[0].commodity)
    else FirstCommodity(records[1..])
  }

  datatype SummaryRow = SummaryRow(rank: int, country: string, value: real, share: real)

  /** The summary's content: the title's commodity and flow, the rows, and the total
      of the rows shown. */
  datatype Summary = NoData(flow: string, commodity: string, year: string)
                   | Table(title: string, flowName: string, year: string, rows: seq<SummaryRow>, total: real)

  function SummaryRows(top: seq<Entry<string>>, total: real): (r: seq<SummaryRow>)
    ensures |r| == |top|
  {
    seq(|top|, i requires 0 <= i < |top| =>
      SummaryRow(i + 1, top[i].key, top[i].amount, if total > 0.0 then top[i].amount / total * 100.0 else 0.0))
  }

  /** The reporters' totals, largest first, cut to `top_n`. */
  function TopReporters(records: seq<TradeRecord>, topN: int): seq<Entry<string>> {
    Take(Descending(GroupSum(ValueEntries(records))), topN)
  }

  /** What `get_commodity_trade_summary` reports for the client's records. */
  function SummaryOf(commodity: string, year: string, flow: string, topN: int, records: seq<TradeRecord>): Summary {
    if records == [] then NoData(flow, commodity, year)
    else
      var top := TopReporters(records, topN);
      var total := Sum(Amounts(top));
      var name := FirstCommodity(records);
      Table(if name.Some? && name.value != "" then name.value else commodity,
            if flow == "M" then "Imports" else "Exports", year, SummaryRows(top, total), total)
  }

  lemma ValueEntriesSnoc(records: seq<TradeRecord>, i: int)
    requires 0 <= i < |records|
    ensures ValueEntries(records[..i + 1])
            == if HasValue(records[i]) then ValueEntries(records[..i]) + [Entry(records[i].reporter, records[i].tradeValue.value)]
               else ValueEntries(records[..i])
  {
    assert records[..i + 1][..i] == records[..i];
  }

  lemma {:induction false} FirstCommoditySnoc(records: seq<TradeRecord>, x: TradeRecord)
    ensures FirstCommodity(records + [x])
            == if FirstCommodity(records).Some? then FirstCommodity(records)
               else if HasValue(x) then Some(x.commodity) else None
  {
    if records == [] {
      assert [x][1..] == [];
    } else {
      assert (records + [x])[0] == records[0];
      assert (records + [x])[1..] == records[1..] + [x];
      FirstCommoditySnoc(records[1..], x);
    }
  }

  /** The aggregation loop: per-reporter totals in a dictionary, and the first
      commodity description seen. */
  method ReporterTotals(records: seq<TradeRecord>) returns (totals: seq<Entry<string>>, name: Option<string>)
    ensures totals == GroupSum(ValueEntries(records)) && name == FirstCommodity(records)
  {
    totals := [];
    name := None;
    for i := 0 to |records|
      invariant totals == GroupSum(ValueEntries(records[..i]))
      invariant name == FirstCommodity(records[..i])
    {
      var r := records[i];
      ValueEntriesSnoc(records, i);
      FirstCommoditySnoc(records[..i], r);
      assert records[..i + 1] == records[..i] + [r];
      if r.tradeValue.Some? && r.tradeValue.value != 0.0 {
        totals := Accumulate(totals, Entry(r.reporter, r.tradeValue.value));
        if name.None? {
          name := Some(r.commodity);
        }
      }
    }
    assert records[..|records|] == records;
  }

  /** The row loop: ranks from 1, each reporter's share of the total shown. */
  method NumberRows(top: seq<Entry<string>>, total: real) returns (rows: seq<SummaryRow>)
    ensures rows == SummaryRows(top, total)
  {
    rows := [];
    for i := 0 to |top|
      invariant rows == SummaryRows(top[..i], total)
    {
      var share := if total > 0.0 then top[i].amount / total * 100.0 else 0.0;
      rows := rows + [SummaryRow(i + 1, top[i].key, top[i].amount, share)];
    }
    assert top[..|top|] == top;
  }

  /** `get_commodity_trade_summary`: the message for no records, else the table
      of the top reporters with their shares of the total shown. */
  method CommodityTradeSummary(commodity: string, year: string, flow: string, topN: int, records: seq<TradeRecord>)
    returns (s: Summary)
    ensures s == SummaryOf(commodity, year, flow, topN, records)
  {
    if records == [] {
      return NoData(flow, commodity, year);
    }
    var totals, name := ReporterTotals(records);
    var top := Take(Descending(totals), topN);
    assert top == TopReporters(records, topN);
    var total := Sum(Amounts(top));
    var rows := NumberRows(top, total);
    var title := if name.Some? && name.value != "" then name.value else commodity;
    s := Table(title, if flow == "M" then "Imports" else "Exports", year, rows, total);
  }

  function Shares(rows: seq<SummaryRow>): seq<real> {
    seq(|rows|, i requires 0 <= i < |rows| => rows[i].share)
  }

  /** The top reporters: largest first, each reporter once with the sum of its
      values, `top_n` of them or every reporter when there are fewer (for a
      non-negative `top_n`), and no reporter left out outweighing a listed one. */
  lemma TopReportersSpec(records: seq<TradeRecord>, topN: int)
    ensures var entries := ValueEntries(records);
            var top := TopReporters(records, topN);
            (topN >= 0 ==> |top| <= topN)
            && (forall i, j :: 0 <= i < j < |top| ==> top[i].amount >= top[j].amount)
            && DistinctKeys(top)
            && (forall i :: 0 <= i < |top| ==>
                 HasKey(entries, top[i].key) && top[i].amount == SumFor(entries, top[i].key))
            && (topN >= 0 ==> |top| == topN || forall k :: HasKey(entries, k) ==> HasKey(top, k))
            && (forall k :: HasKey(entries, k) && !HasKey(top, k) ==>
                  forall i :: 0 <= i < |top| ==> SumFor(entries, k) <= top[i].amount)
  {
    TopOfSums(ValueEntries(records), topN);
  }

  /** Ties: the reporters are totalled in order of first appearance, and Python's
      stable `sorted(…, reverse=True)` keeps that order among equal totals, so the
      listed reporters of any one total are the first reporters with that total. */
  lemma TopReportersTies(records: seq<TradeRecord>, topN: int, v: real)
    ensures var totals := GroupSum(ValueEntries(records));
            Keys(totals) == FirstSeen(Keys(ValueEntries(records)))
            && Filter(TopReporters(records, topN), AmountIs(v)) <= Filter(totals, AmountIs(v))
  {
    GroupSumOrder(ValueEntries(records));
    TopTies(GroupSum(ValueEntries(records)), topN, v);
  }

  /** The numbered rows: rank i + 1 for the i-th reporter, its value, and its
      percentage of the total of the values when that is positive (so the shares
      add up to 100), all 0 otherwise. */
  lemma SummaryRowsSpec(top: seq<Entry<string>>)
    ensures var total := Sum(Amounts(top));
            var rows := SummaryRows(top, total);
            (forall i :: 0 <= i < |rows| ==> rows[i].rank == i + 1 && rows[i].country == top[i].key && rows[i].value == top[i].amount)
            && (total > 0.0 ==> forall i :: 0 <= i < |rows| ==> rows[i].share == rows[i].value / total * 100.0)
            && (total > 0.0 ==> Sum(Shares(rows)) == 100.0)
            && (total <= 0.0 ==> forall i :: 0 <= i < |rows| ==> rows[i].share == 0.0)
  {
    var total := Sum(Amounts(top));
    var rows := SummaryRows(top, total);
    if total > 0.0 {
      assert Shares(rows) == Seqs.Shares(Amounts(top), total);
      SharesOfWholeSumTo100(Amounts(top));
    }
  }

  /** Some row is the reporter's. */
  predicate Shown(rows: seq<SummaryRow>, k: string) {
    exists i :: 0 <= i < |rows| && rows[i].country == k
  }

  /** The table's rows are ranked 1, 2, ..., values never increasing, each the sum
      of one reporter's values and each reporter at most once: `top_n` rows, or
      one per reporter when there are fewer (for a non-negative `top_n`), no
      reporter left out outweighing a shown one. The total is that of the rows
      shown and each share is the row's percentage of it when it is positive (so
      the shares add up to 100), all 0 otherwise. */
  lemma SummarySpec(commodity: string, year: string, flow: string, topN: int, records: seq<TradeRecord>)
    requires records != []
    ensures var s := SummaryOf(commodity, year, flow, topN, records);
            var rows := s.rows;
            var entries := ValueEntries(records);
            s.Table?
            && (topN >= 0 ==> |rows| <= topN)
            && (forall i :: 0 <= i < |rows| ==>
                  (rows[i].rank == i + 1
                   && HasKey(entries, rows[i].country)
                   && rows[i].value == SumFor(entries, rows[i].country)))
            && (forall i, j :: 0 <= i < j < |rows| ==> rows[i].value >= rows[j].value && rows[i].country != rows[j].country)
            && (topN >= 0 ==> |rows| == topN || forall k :: HasKey(entries, k) ==> Shown(rows, k))
            && (forall k :: HasKey(entries, k) && !Shown(rows, k) ==>
                  forall i :: 0 <= i < |rows| ==> SumFor(entries, k) <= rows[i].value)
            && s.total == Sum(Amounts(TopReporters(records, topN)))
            && (s.total > 0.0 ==> forall i :: 0 <= i < |rows| ==> rows[i].share == rows[i].value / s.total * 100.0)
            && (s.total > 0.0 ==> Sum(Shares(rows)) == 100.0)
            && (s.total <= 0.0 ==> forall i :: 0 <= i < |rows| ==> rows[i].share == 0.0)
  {
    var top := TopReporters(records, topN);
    var s := SummaryOf(commodity, year, flow, topN, records);
    assert s.rows == SummaryRows(top, Sum(Amounts(top))) && s.total == Sum(Amounts(top));
    RankedRows(records, topN);
    SummaryRowsSpec(top);
  }

  /** The rows built from the top reporters, in reporter terms. */
  lemma RankedRows(records: seq<TradeRecord>, topN: int)
    ensures var top := TopReporters(records, topN);
            var rows := SummaryRows(top, Sum(Amounts(top)));
            var entries := ValueEntries(records);
            (topN >= 0 ==> |rows| <= topN)
            && (forall i :: 0 <= i < |rows| ==>
                  (rows[i].rank == i + 1
                   && HasKey(entries, rows[i].country)
                   && rows[i].value == SumFor(entries, rows[i].country)))
            && (forall i, j :: 0 <= i < j < |rows| ==> rows[i].value >= rows[j].value && rows[i].country != rows[j].country)
            && (topN >= 0 ==> |rows| == topN || forall k :: HasKey(entries, k) ==> Shown(rows, k))
            && (forall k :: HasKey(entries, k) && !Shown(rows, k) ==>
                  forall i :: 0 <= i < |rows| ==> SumFor(entries, k) <= rows[i].value)
  {
    TopReportersSpec(records, topN);
    RowsOfTop(TopReporters(records, topN), ValueEntries(records), topN);
  }

  /** What holds of the top reporters holds of their rows. */
  lemma RowsOfTop(top: seq<Entry<string>>, entries: seq<Entry<string>>, topN: int)
    requires topN >= 0 ==> |top| <= topN
    requires forall i, j :: 0 <= i < j < |top| ==> top[i].amount >= top[j].amount
    requires DistinctKeys(top)
    requires forall i :: 0 <= i < |top| ==> HasKey(entries, top[i].key) && top[i].amount == SumFor(entries, top[i].key)
    requires topN >= 0 ==> |top| == topN || forall k :: HasKey(entries, k) ==> HasKey(top, k)
    requires forall k :: HasKey(entries, k) && !HasKey(top, k) ==>
               forall i :: 0 <= i < |top| ==> SumFor(entries, k) <= top[i].amount
    ensures var rows := SummaryRows(top, Sum(Amounts(top)));
            (topN >= 0 ==> |rows| <= topN)
            && (forall i :: 0 <= i < |rows| ==>
                  (rows[i].rank == i + 1
                   && HasKey(entries, rows[i].country)
                   && rows[i].value == SumFor(entries, rows[i].country)))
            && (forall i, j :: 0 <= i < j < |rows| ==> rows[i].value >= rows[j].value && rows[i].country != rows[j].country)
            && (topN >= 0 ==> |rows| == topN || forall k :: HasKey(entries, k) ==> Shown(rows, k))
            && (forall k :: HasKey(entries, k) && !Shown(rows, k) ==>
                  forall i :: 0 <= i < |rows| ==> SumFor(entries, k) <= rows[i].value)
  {
    var rows := SummaryRows(top, Sum(Amounts(top)));
    forall k ensures Shown(rows, k) <==> HasKey(top, k) {
      if HasKey(top, k) {
        var i :| 0 <= i < |top| && top[i].key == k;
        assert rows[i].country == k;
      }
    }
  }

  /** No records: the message, not a table. */
  lemma SummaryNoData(commodity: string, year: string, flow: string, topN: int)
    ensures SummaryOf(commodity, year, flow, topN, []) == NoData(flow, commodity, year)
  {
  }

  // ----- get_country_trade_profile -----

  /** `sum(r.trade_value or 0 for r in records)`. */
  function RecordTotal(records: seq<TradeRecord>): real {
    if records == [] then 0.0
    else RecordTotal(records[..|records| - 1]) + records[|records| - 1].tradeValue.GetOr(0.0)
  }

  /** The Comtrade client's answer for (reporter, commodity codes, flow, period). */
  type Fetch = (string, string, string, string) -> seq<TradeRecord>

  /** The minerals whose total for the flow is positive, with that total, in table
      order. */
  function PositiveTotals(table: seq<Mineral>, fetch: Fetch, country: string, flow: string, year: string): seq<Entry<string>> {
    if table == [] then []
    else
      var init := PositiveTotals(table[..|table| - 1], fetch, country, flow, year);
      var m := table[|table| - 1];
      var total := RecordTotal(fetch(country, Join(m.codes, ","), flow, year));
      if total > 0.0 then init + [Entry(m.name, total)] else init
  }

  datatype TradeProfile = TradeProfile(countryCode: string, year: string, imports: seq<Entry<string>>,
                                       exports: seq<Entry<string>>, totalImports: real, totalExports: real,
                                       tradeBalance: real)

  function ProfileOf(country: string, year: string, commodityType: string, fetch: Fetch): TradeProfile {
    var imports := if commodityType == "critical_minerals" then PositiveTotals(Minerals, fetch, country, "M", year) else [];
    var exports := if commodityType == "critical_minerals" then PositiveTotals(Minerals, fetch, country, "X", year) else [];
    TradeProfile(country, year, imports, exports, Sum(Amounts(imports)), Sum(Amounts(exports)),
                 Sum(Amounts(exports)) - Sum(Amounts(imports)))
  }

  lemma PositiveTotalsSnoc(table: seq<Mineral>, i: int, fetch: Fetch, country: string, flow: string, year: string)
    requires 0 <= i < |table|
    ensures var m := table[i];
            var total := RecordTotal(fetch(country, Join(m.codes, ","), flow, year));
            PositiveTotals(table[..i + 1], fetch, country, flow, year)
            == if total > 0.0 then PositiveTotals(table[..i], fetch, country, flow, year) + [Entry(m.name, total)]
               else PositiveTotals(table[..i], fetch, country, flow, year)
  {
    assert table[..i + 1][..i] == table[..i];
  }

  /** `get_country_trade_profile`: for each critical mineral, in table order, the
      import and export totals go into the maps only when positive; then the
      totals and the balance. */
  method CountryTradeProfile(country: string, year: string, commodityType: string, fetch: Fetch)
    returns (p: TradeProfile)
    ensures p == ProfileOf(country, year, commodityType, fetch)
  {
    var imports: seq<Entry<string>> := [];
    var exports: seq<Entry<string>> := [];
    if commodityType == "critical_minerals" {
      for i := 0 to |Minerals|
        invariant imports == PositiveTotals(Minerals[..i], fetch, country, "M", year)
        invariant exports == PositiveTotals(Minerals[..i], fetch, country, "X", year)
      {
        var m := Minerals[i];
        var commodity := Join(m.codes, ",");
        var importTotal := RecordTotal(fetch(country, commodity, "M", year));
        var exportTotal := RecordTotal(fetch(country, commodity, "X", year));
        PositiveTotalsSnoc(Minerals, i, fetch, country, "M", year);
        PositiveTotalsSnoc(Minerals, i, fetch, country, "X", year);
        if importTotal > 0.0 {
          imports := imports + [Entry(m.name, importTotal)];
        }
        if exportTotal > 0.0 {
          exports := exports + [Entry(m.name, exportTotal)];
        }
      }
      assert Minerals[..|Minerals|] == Minerals;
    }
    var totalImports := Sum(Amounts(imports));
    var totalExports := Sum(Amounts(exports));
    p := TradeProfile(country, year, imports, exports, totalImports, totalExports, totalExports - totalImports);
  }

  /** A mineral appears under a flow exactly when its total there is positive, with
      that total; every listed amount is positive, so a flow's total is never
      negative. */
  lemma {:induction false} PositiveTotalsSpec(table: seq<Mineral>, fetch: Fetch, country: string, flow: string, year: string)
    ensures var d := PositiveTotals(table, fetch, country, flow, year);
            (forall e :: e in d ==>
                          (e.amount > 0.0
                           && exists m :: m in table && e == Entry(m.name, RecordTotal(fetch(country, Join(m.codes, ","), flow, year)))))
            && (forall m :: m in table && RecordTotal(fetch(country, Join(m.codes, ","), flow, year)) > 0.0 ==>
                  Entry(m.name, RecordTotal(fetch(country, Join(m.codes, ","), flow, year))) in d)
            && Sum(Amounts(d)) >= 0.0
  {
    if table != [] {
      var init := table[..|table| - 1];
      var m := table[|table| - 1];
      PositiveTotalsSpec(init, fetch, country, flow, year);
      assert forall x :: x in table <==> x in init || x == m;
      var d0 := PositiveTotals(init, fetch, country, flow, year);
      var total := RecordTotal(fetch(country, Join(m.codes, ","), flow, year));
      if total > 0.0 {
        SumAmountsSnoc(d0, Entry(m.name, total));
      }
    }
  }

  /** The display names are distinct, so the profile's maps never overwrite. */
  lemma MineralNamesDistinct()
    ensures forall i, j :: 0 <= i < j < |Minerals| ==> Minerals[i].name != Minerals[j].name
  {
  }

  /** The profile's maps, totals and balance: only positive totals are listed, the
      totals add the listed amounts, the balance is exports minus imports, and any
      other commodity type lists nothing. */
  lemma ProfileSpec(country: string, year: string, commodityType: string, fetch: Fetch)
    ensures var p := ProfileOf(country, year, commodityType, fetch);
            p.totalImports == Sum(Amounts(p.imports)) && p.totalExports == Sum(Amounts(p.exports))
            && p.tradeBalance == p.totalExports - p.totalImports
            && p.totalImports >= 0.0 && p.totalExports >= 0.0
            && (forall e :: e in p.imports + p.exports ==> e.amount > 0.0)
            && (commodityType != "critical_minerals" ==> p.imports == [] && p.exports == [] && p.tradeBalance == 0.0)
  {
    PositiveTotalsSpec(Minerals, fetch, country, "M", year);
    PositiveTotalsSpec(Minerals, fetch, country, "X", year);
  }
}
