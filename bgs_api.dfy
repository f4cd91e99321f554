/** The aggregation inside the BGS World Mineral Statistics REST handlers: the
    commodity categories, the country-argument convention, the ranking with
    shares, the global and per-country time series with year-on-year change,
    the comparison's units, and the country profile. The records each handler
    receives from the BGS client are its inputs. */
module BgsApi {
  import opened Strings
  import opened Seqs

  /** Why a handler answers with an HTTP error: only 404 is raised here. */
  datatype HttpError = NotFound

  // ----- list_commodities: categorisation -----

  datatype Category = Battery | RareEarth | Strategic | Technology | BaseMetals | Precious | Industrial | Other

  /** The categories in the order the handler creates (and tests) them. */
  const Order: seq<Category> := [Battery, RareEarth, Strategic, Technology, BaseMetals, Precious, Industrial, Other]

  /** A category's position in `Order`. */
  function Rank(c: Category): (n: nat)
    ensures n < 8 && Order[n] == c
  {
    match c
    case Battery => 0
    case RareEarth => 1
    case Strategic => 2
    case Technology => 3
    case BaseMetals => 4
    case Precious => 5
    case Industrial => 6
    case Other => 7
  }

  function Keywords(c: Category): seq<string> {
    match c
    case Battery => ["lithium", "cobalt", "nickel", "graphite", "manganese"]
    case RareEarth => ["rare earth"]
    case Strategic => ["platinum", "vanadium", "tungsten", "chromium", "tantalum", "niobium", "titanium"]
    case Technology => ["gallium", "germanium", "indium", "beryl", "selenium", "rhenium"]
    case BaseMetals => ["copper", "zinc", "lead", "tin", "aluminium", "bauxite", "alumina", "iron"]
    case Precious => ["gold", "silver"]
    case Industrial => ["fluorspar", "magnesite", "phosphate", "barytes", "borate"]
    case Other => []
  }

  /** The lowercased name contains one of the category's keywords. */
  predicate Mentions(name: string, c: Category) {
    exists k :: k in Keywords(c) && Contains(Lower(name), k)
  }

  /** The category a commodity is filed under: the first, in order, whose keywords
      it mentions; "other" when it mentions none. */
  function CategoryOf(name: string): (c: Category)
    ensures c != Other ==> Mentions(name, c)
    ensures forall d :: Rank(d) < Rank(c) ==> !Mentions(name, d)
  {
    if Mentions(name, Battery) then Battery
    else if Mentions(name, RareEarth) then RareEarth
    else if Mentions(name, Strategic) then Strategic
    else if Mentions(name, Technology) then Technology
    else if Mentions(name, BaseMetals) then BaseMetals
    else if Mentions(name, Precious) then Precious
    else if Mentions(name, Industrial) then Industrial
    else Other
  }

  /** The test that files a commodity under `cat`. */
  function FiledAs(cat: Category): string -> bool {
    c => CategoryOf(c) == cat
  }

  /** One category's list: the commodities filed under it, in input order. */
  function InCategory(names: seq<string>, cat: Category): (r: seq<string>)
    ensures |r| <= |names|
    ensures forall c :: c in r <==> c in names && CategoryOf(c) == cat
  {
    if names == [] then []
    else
      var init := names[..|names| - 1];
      var last := names[|names| - 1];
      assert forall c :: c in names <==> c in init || c == last;
      if CategoryOf(last) == cat then InCategory(init, cat) + [last] else InCategory(init, cat)
  }

  /** A category's list is the input filtered by the category test, so it keeps
      the commodities in input order. */
  lemma {:induction false} InCategoryOrder(names: seq<string>, cat: Category)
    ensures InCategory(names, cat) == Filter(names, FiledAs(cat))
  {
    if names != [] {
      InCategoryOrder(names[..|names| - 1], cat);
    }
  }

  datatype Group = Group(category: Category, members: seq<string>)

  /** The eight lists, before the empty ones are dropped. */
  function AllGroups(names: seq<string>): (r: seq<Group>)
    ensures |r| == 8
  {
    seq(8, i requires 0 <= i < 8 => Group(Order[i], InCategory(names, Order[i])))
  }

  predicate HasMembers(g: Group) {
    g.members != []
  }

  /** The lists that received at least one commodity. */
  function NonEmpty(all: seq<Group>): seq<Group> {
    Filter(all, HasMembers)
  }

  /** What the handler returns under `categories`: the non-empty lists. */
  function Categorized(names: seq<string>): seq<Group> {
    NonEmpty(AllGroups(names))
  }

  /** The loop's step: the commodity goes to the end of its category's list. */
  function FileUnder(all: seq<Group>, c: string): seq<Group>
    requires |all| == 8
  {
    var k := Rank(CategoryOf(c));
    all[k := Group(all[k].category, all[k].members + [c])]
  }

  /** One more commodity extends its own category's list and leaves the other
      seven alone. */
  lemma AllGroupsSnoc(names: seq<string>, c: string)
    ensures AllGroups(names + [c]) == FileUnder(AllGroups(names), c)
  {
    var next, filed := AllGroups(names + [c]), FileUnder(AllGroups(names), c);
    forall i | 0 <= i < 8
      ensures next[i] == filed[i]
    {
      GroupSnocAt(names, c, i);
    }
  }

  /** The pointwise step of `AllGroupsSnoc`, one list at a time. */
  lemma GroupSnocAt(names: seq<string>, c: string, i: int)
    requires 0 <= i < 8
    ensures AllGroups(names + [c])[i] == FileUnder(AllGroups(names), c)[i]
  {
    assert Rank(Order[i]) == i;
    InCategorySnoc(names, c, Order[i]);
  }

  /** One more name is appended to its own category's list only. */
  lemma InCategorySnoc(names: seq<string>, c: string, cat: Category)
    ensures InCategory(names + [c], cat)
            == if CategoryOf(c) == cat then InCategory(names, cat) + [c] else InCategory(names, cat)
  {
    assert (names + [c])[..|names|] == names;
  }

  /** Before the loop every list is empty. */
  lemma AllGroupsEmpty()
    ensures AllGroups([]) == seq(8, i requires 0 <= i < 8 => Group(Order[i], []))
  {
  }

  /** The categorisation loop: each commodity is appended to its category's list. */
  method Categorize(names: seq<string>) returns (groups: seq<Group>)
    ensures groups == Categorized(names)
  {
    var all: seq<Group> := seq(8, i requires 0 <= i < 8 => Group(Order[i], []));
    AllGroupsEmpty();
    assert names[..0] == [];
    for n := 0 to |names|
      invariant all == AllGroups(names[..n])
    {
      AllGroupsSnoc(names[..n], names[n]);
      assert names[..n + 1] == names[..n] + [names[n]];
      all := FileUnder(all, names[n]);
    }
    assert names[..|names|] == names;
    groups := NonEmpty(all);
  }

  /** The lists partition the commodities: no list is empty, the lists come in
      the order the categories are created (so no category repeats), each list
      holds the commodities of its category in input order, each commodity is in
      the list of its own category and in no other, and every commodity is in
      some list. */
  lemma CategorizedPartition(names: seq<string>)
    ensures var r := Categorized(names);
            (forall g :: g in r ==> g.members != [])
            && (forall i, j :: 0 <= i < j < |r| ==> Rank(r[i].category) < Rank(r[j].category))
            && (forall g, h :: g in r && h in r && g.category == h.category ==> g == h)
            && (forall g :: g in r ==> g.members == Filter(names, FiledAs(g.category)))
            && (forall g, c :: g in r ==> (c in g.members <==> c in names && CategoryOf(c) == g.category))
            && forall c :: c in names ==> exists g :: g in r && g.category == CategoryOf(c) && c in g.members
  {
    var all := AllGroups(names);
    var r := Categorized(names);
    CategorizedLists(names);
    CategorizedRanks(names);
    forall g, h | g in r && h in r && g.category == h.category ensures g == h {
      var i :| 0 <= i < |r| && r[i] == g;
      var j :| 0 <= j < |r| && r[j] == h;
    }
    forall g | g in r ensures g.members == Filter(names, FiledAs(g.category)) {
      InCategoryOrder(names, g.category);
    }
    forall c | c in names ensures exists g :: g in r && g.category == CategoryOf(c) && c in g.members {
      var k := Rank(CategoryOf(c));
      assert all[k] in all;
      assert c in all[k].members;
    }
  }

  /** Each list kept is its category's non-empty list. */
  lemma CategorizedLists(names: seq<string>)
    ensures forall g :: g in Categorized(names) ==> g.members == InCategory(names, g.category) && g.members != []
  {
    var all := AllGroups(names);
    assert forall g :: g in all ==> g == Group(g.category, InCategory(names, g.category));
  }

  /** The lists kept follow the order in which the categories are created. */
  lemma CategorizedRanks(names: seq<string>)
    ensures var r := Categorized(names);
            forall i, j :: 0 <= i < j < |r| ==> Rank(r[i].category) < Rank(r[j].category)
  {
    var all := AllGroups(names);
    var r := Categorized(names);
    var idx := FilterSubsequence(all, HasMembers);
    forall i, j | 0 <= i < j < |r| ensures Rank(r[i].category) < Rank(r[j].category) {
      GroupRank(names, idx[i]);
      GroupRank(names, idx[j]);
    }
  }

  /** The list at position `i` is that of the `i`-th category. */
  lemma GroupRank(names: seq<string>, i: int)
    requires 0 <= i < 8
    ensures Rank(AllGroups(names)[i].category) == i
  {
    assert AllGroups(names)[i].category == Order[i];
    match Order[i]
    case Battery =>
    case RareEarth =>
    case Strategic =>
    case Technology =>
    case BaseMetals =>
    case Precious =>
    case Industrial =>
    case Other =>
  }

  /** `list_commodities`' answer. */
  datatype CommodityList = CommodityList(total: int, commodities: seq<string>, categories: Option<seq<Group>>)

  method ListCommodities(names: seq<string>, categorize: bool) returns (r: CommodityList)
    ensures r.total == |names| && r.commodities == names
    ensures r.categories == if categorize then Some(Categorized(names)) else None
  {
    var categories: Option<seq<Group>> := None;
    if categorize {
      var groups := Categorize(names);
      categories := Some(groups);
    }
    r := CommodityList(|names|, names, categories);
  }

  // ----- the country argument -----

  /** What a handler passes on to the client for a country argument. */
  datatype CountryQuery = CountryQuery(name: Option<string>, iso: Option<string>)

  /** `search_production` and `get_time_series`: a non-empty argument of at most
      three characters is an ISO code, anything else a name. */
  function CountryArg(country: Option<string>): CountryQuery {
    if country.Some? && country.value != "" && |country.value| <= 3 then CountryQuery(None, country)
    else CountryQuery(country, None)
  }

  /** `get_country_profile`: the same rule on a path parameter, without the
      emptiness test. */
  function ProfileCountryArg(country: string): CountryQuery {
    if |country| <= 3 then CountryQuery(None, Some(country)) else CountryQuery(Some(country), None)
  }

  /** Exactly one of name and code carries the argument, which is passed on
      unchanged; the two handlers agree on every non-empty argument. */
  lemma CountryArgSpec(country: Option<string>)
    ensures var q := CountryArg(country);
            (q.name.None? || q.iso.None?)
            && (if q.iso.Some? then q.iso else q.name) == country
            && (q.iso.Some? <==> country.Some? && 0 < |country.value| <= 3)
            && (country.Some? && country.value != "" ==> q == ProfileCountryArg(country.value))
  {
  }

  // ----- get_commodity_ranking -----

  /** One row of `get_commodity_by_country`'s answer. */
  datatype Ranked = Ranked(country: string, countryIso3: Option<string>, year: int, quantity: real,
                           units: Option<string>)

  datatype RankedCountry = RankedCountry(rank: int, country: string, countryIso3: Option<string>,
                                         quantity: real, sharePercent: real)

  datatype RankingResponse = RankingResponse(commodity: string, year: int, statisticType: string,
                                             units: Option<string>, totalQuantity: real,
                                             rankings: seq<RankedCountry>)

  function Quantities(ranked: seq<Ranked>): (r: seq<real>)
    ensures |r| == |ranked| && forall i :: 0 <= i < |ranked| ==> r[i] == ranked[i].quantity
  {
    seq(|ranked|, i requires 0 <= i < |ranked| => ranked[i].quantity)
  }

  /** `sum(q for q in quantities if q)`. */
  function TruthyTotal(ranked: seq<Ranked>): real {
    if ranked == [] then 0.0
    else
      var q := ranked[|ranked| - 1].quantity;
      TruthyTotal(ranked[..|ranked| - 1]) + (if q != 0.0 then q else 0.0)
  }

  /** Skipping zero quantities does not change the sum. */
  lemma {:induction false} TruthyTotalIsSum(ranked: seq<Ranked>)
    ensures TruthyTotal(ranked) == Sum(Quantities(ranked))
  {
    if ranked != [] {
      var init := ranked[..|ranked| - 1];
      TruthyTotalIsSum(init);
      assert Quantities(ranked)[..|ranked| - 1] == Quantities(init);
    }
  }

  /** The share before rounding: a percentage of a positive total, else 0. */
  function RankShare(q: real, total: real): real {
    if total > 0.0 then q / total * 100.0 else 0.0
  }

  function RankedRows(ranked: seq<Ranked>, total: real): (r: seq<RankedCountry>)
    ensures |r| == |ranked|
  {
    seq(|ranked|, i requires 0 <= i < |ranked| =>
      RankedCountry(i + 1, ranked[i].country, ranked[i].countryIso3, ranked[i].quantity,
                    RankShare(ranked[i].quantity, total)))
  }

  /** What `get_commodity_ranking` answers for the client's rows. */
  function RankingOf(commodity: string, statisticType: string, ranked: seq<Ranked>): Result<RankingResponse, HttpError> {
    if ranked == [] then Err(NotFound)
    else
      var total := TruthyTotal(ranked);
      Ok(RankingResponse(commodity, ranked[0].year, statisticType, ranked[0].units, total, RankedRows(ranked, total)))
  }

  /** The handler's loop: `enumerate(ranked, 1)`, one ranking row per client row. */
  method GetCommodityRanking(commodity: string, statisticType: string, ranked: seq<Ranked>)
    returns (r: Result<RankingResponse, HttpError>)
    ensures r == RankingOf(commodity, statisticType, ranked)
  {
    if ranked == [] {
      return Err(NotFound);
    }
    var total := TruthyTotal(ranked);
    var rankings: seq<RankedCountry> := [];
    for i := 0 to |ranked|
      invariant rankings == RankedRows(ranked[..i], total)
    {
      var q := ranked[i].quantity;
      var share := if total > 0.0 then q / total * 100.0 else 0.0;
      rankings := rankings + [RankedCountry(i + 1, ranked[i].country, ranked[i].countryIso3, q, share)];
    }
    assert ranked[..|ranked|] == ranked;
    r := Ok(RankingResponse(commodity, ranked[0].year, statisticType, ranked[0].units, total, rankings));
  }

  function SharePercents(rows: seq<RankedCountry>): seq<real> {
    seq(|rows|, i requires 0 <= i < |rows| => rows[i].sharePercent)
  }

  /** 404 exactly for no rows; otherwise the rows keep the client's order with
      ranks 1, 2, ..., the year and units are those of the first row, the total is
      the sum of all quantities, each share is the row's percentage of a positive
      total (so the shares add up to 100), and all shares are 0 when the total is
      not positive. */
  lemma RankingSpec(commodity: string, statisticType: string, ranked: seq<Ranked>)
    ensures var r := RankingOf(commodity, statisticType, ranked);
            (r.Err? <==> ranked == [])
            && (r.Ok? ==>
                  var rows := r.value.rankings;
                  r.value.year == ranked[0].year && r.value.units == ranked[0].units
                  && r.value.totalQuantity == Sum(Quantities(ranked))
                  && |rows| == |ranked|
                  && (forall i :: 0 <= i < |rows| ==>
                        rows[i].rank == i + 1 && rows[i].country == ranked[i].country
                        && rows[i].countryIso3 == ranked[i].countryIso3
                        && rows[i].quantity == ranked[i].quantity
                        && (r.value.totalQuantity > 0.0 ==>
                              rows[i].sharePercent == rows[i].quantity / r.value.totalQuantity * 100.0))
                  && (r.value.totalQuantity > 0.0 ==> Sum(SharePercents(rows)) == 100.0)
                  && (r.value.totalQuantity <= 0.0 ==> forall i :: 0 <= i < |rows| ==> rows[i].sharePercent == 0.0))
  {
    if ranked != [] {
      TruthyTotalIsSum(ranked);
      var total := TruthyTotal(ranked);
      if total > 0.0 {
        var rows := RankedRows(ranked, total);
        assert SharePercents(rows) == Shares(Quantities(ranked), total);
        SharesOfWholeSumTo100(Quantities(ranked));
      }
    }
  }

  // ----- get_time_series -----

  /** One record from the BGS client: year and quantity may be missing. */
  datatype Record = Record(commodity: string, country: string, year: Option<int>, quantity: Option<real>,
                           units: Option<string>)

  /** `r.year and r.quantity is not None`: a non-zero year and some quantity. */
  predicate Counts(r: Record) {
    r.year.Some? && r.year.value != 0 && r.quantity.Some?
  }

  /** The (year, quantity) pairs of the counting records, in input order. */
  function YearEntries(records: seq<Record>): (r: seq<Entry<int>>)
    ensures |r| <= |records|
  {
    if records == [] then []
    else
      var init := YearEntries(records[..|records| - 1]);
      var last := records[|records| - 1];
      if Counts(last) then init + [Entry(last.year.value, last.quantity.value)] else init
  }

  lemma {:induction false} YearEntriesSpec(records: seq<Record>, y: int)
    ensures HasKey(YearEntries(records), y) <==> exists r :: r in records && Counts(r) && r.year.value == y
  {
    if records != [] {
      var init := records[..|records| - 1];
      var last := records[|records| - 1];
      YearEntriesSpec(init, y);
      assert forall r :: r in records <==> r in init || r == last;
      var e := YearEntries(records);
      if HasKey(YearEntries(init), y) {
        var i :| 0 <= i < |YearEntries(init)| && YearEntries(init)[i].key == y;
        assert e[i].key == y;
      }
      if HasKey(e, y) && !(Counts(last) && last.year.value == y) {
        var i :| 0 <= i < |e| && e[i].key == y;
        assert YearEntries(init)[i].key == y;
      }
      if Counts(last) && last.year.value == y {
        assert e[|e| - 1].key == y;
      }
    }
  }

  /** The units of the last counting record (None when none counts). */
  function LastUnits(records: seq<Record>): Option<string> {
    if records == [] then None
    else if Counts(records[|records| - 1]) then records[|records| - 1].units
    else LastUnits(records[..|records| - 1])
  }

  datatype Point = Point(year: int, quantity: real, yoyChangePercent: Option<real>)

  /** `(qty - prev) / prev * 100`: the percentage change from `prev` to `q`. */
  function Change(prev: real, q: real): real
    requires prev != 0.0
  {
    (q - prev) / prev * 100.0
  }

  /** Year-on-year change before rounding: only against a previous quantity that is
      present, non-zero and positive. */
  function Yoy(prev: Option<real>, q: real): Option<real> {
    if prev.Some? && prev.value != 0.0 && prev.value > 0.0 then Some(Change(prev.value, q))
    else None
  }

  /** The change computed inside both point loops: none unless the previous
      quantity is present, non-zero and positive. */
  method ChangeFrom(prev: Option<real>, q: real) returns (yoy: Option<real>)
    ensures yoy == Yoy(prev, q)
    ensures yoy.Some? <==> prev.Some? && prev.value > 0.0
  {
    yoy := None;
    if prev.Some? && prev.value != 0.0 && prev.value > 0.0 {
      yoy := Some(Change(prev.value, q));
    }
  }

  /** The points for (year, quantity) pairs, each compared with the pair before it. */
  function WithYoy(pairs: seq<Entry<int>>): (r: seq<Point>)
    ensures |r| == |pairs|
  {
    seq(|pairs|, i requires 0 <= i < |pairs| =>
      Point(pairs[i].key, pairs[i].amount, Yoy(if i == 0 then None else Some(pairs[i - 1].amount), pairs[i].amount)))
  }

  /** The points for the given years, each with the dictionary's total for it. */
  function Pairs(totals: seq<Entry<int>>, years: seq<int>): (r: seq<Entry<int>>)
    ensures |r| == |years|
  {
    seq(|years|, i requires 0 <= i < |years| => Entry(years[i], SumFor(totals, years[i])))
  }

  /** The year totals, `year_totals[year]` for each year in ascending order. */
  function GlobalPairs(records: seq<Record>): seq<Entry<int>> {
    var totals := GroupSum(YearEntries(records));
    Pairs(totals, SortedUniqueInts(Keys(totals)))
  }

  lemma YearEntriesSnoc(records: seq<Record>, i: int)
    requires 0 <= i < |records|
    ensures YearEntries(records[..i + 1])
            == if Counts(records[i]) then YearEntries(records[..i]) + [Entry(records[i].year.value, records[i].quantity.value)]
               else YearEntries(records[..i])
    ensures LastUnits(records[..i + 1]) == if Counts(records[i]) then records[i].units else LastUnits(records[..i])
  {
    assert records[..i + 1][..i] == records[..i];
  }

  /** The amount of the last pair, if any. */
  function LastAmount(pairs: seq<Entry<int>>): Option<real> {
    if pairs == [] then None else Some(pairs[|pairs| - 1].amount)
  }

  /** Appending a pair appends one point, compared with the last pair before it. */
  lemma WithYoySnoc(pairs: seq<Entry<int>>, e: Entry<int>)
    ensures WithYoy(pairs + [e]) == WithYoy(pairs) + [Point(e.key, e.amount, Yoy(LastAmount(pairs), e.amount))]
  {
    var l := WithYoy(pairs + [e]);
    var r := WithYoy(pairs) + [Point(e.key, e.amount, Yoy(LastAmount(pairs), e.amount))];
    forall i | 0 <= i < |l| ensures l[i] == r[i] {
      if i < |pairs| {
        assert (pairs + [e])[i] == pairs[i];
        if i > 0 { assert (pairs + [e])[i - 1] == pairs[i - 1]; }
      }
    }
  }

  /** The first loop of the global branch: the totals per year, in a dictionary, and
      the units of the last counting record. */
  method YearTotals(records: seq<Record>) returns (totals: seq<Entry<int>>, units: Option<string>)
    ensures totals == GroupSum(YearEntries(records)) && units == LastUnits(records)
  {
    totals := [];
    units := None;
    for i := 0 to |records|
      invariant totals == GroupSum(YearEntries(records[..i]))
      invariant units == LastUnits(records[..i])
    {
      var r := records[i];
      YearEntriesSnoc(records, i);
      if r.year.Some? && r.year.value != 0 && r.quantity.Some? {
        totals := Accumulate(totals, Entry(r.year.value, r.quantity.value));
        units := r.units;
      }
    }
    assert records[..|records|] == records;
  }

  /** The second loop of the global branch: one point per year in the given order,
      each compared with the point before it. */
  method YearPoints(totals: seq<Entry<int>>, years: seq<int>) returns (data: seq<Point>)
    ensures data == WithYoy(Pairs(totals, years))
  {
    ghost var pairs := Pairs(totals, years);
    data := [];
    var prev: Option<real> := None;
    for j := 0 to |years|
      invariant data == WithYoy(pairs[..j])
      invariant prev == LastAmount(pairs[..j])
    {
      var qty := SumFor(totals, years[j]);
      var yoy := ChangeFrom(prev, qty);
      assert pairs[j] == Entry(years[j], qty);
      assert pairs[..j + 1] == pairs[..j] + [pairs[j]];
      WithYoySnoc(pairs[..j], pairs[j]);
      data := data + [Point(years[j], qty, yoy)];
      prev := Some(qty);
    }
    assert pairs[..|years|] == pairs;
  }

  /** The global branch. */
  method GlobalSeries(records: seq<Record>) returns (data: seq<Point>, units: Option<string>)
    ensures data == WithYoy(GlobalPairs(records)) && units == LastUnits(records)
  {
    var totals;
    totals, units := YearTotals(records);
    var years := SortedUniqueInts(Keys(totals));
    data := YearPoints(totals, years);
  }

  predicate HasPointIn(s: seq<Point>, y: int) {
    exists i :: 0 <= i < |s| && s[i].year == y
  }

  predicate CountsIn(records: seq<Record>, y: int) {
    exists r :: r in records && Counts(r) && r.year.value == y
  }

  /** How the change of each point relates to the point before it. */
  predicate YoyChained(s: seq<Point>) {
    (|s| > 0 ==> s[0].yoyChangePercent.None?)
    && forall i :: 0 < i < |s| ==>
         (s[i].yoyChangePercent.Some? <==> s[i - 1].quantity > 0.0)
         && (s[i - 1].quantity > 0.0 ==>
               s[i].yoyChangePercent.value == Change(s[i - 1].quantity, s[i].quantity))
  }

  lemma WithYoyChained(pairs: seq<Entry<int>>)
    ensures YoyChained(WithYoy(pairs))
  {
    var s := WithYoy(pairs);
    forall i | 0 < i < |s|
      ensures (s[i].yoyChangePercent.Some? <==> s[i - 1].quantity > 0.0)
              && (s[i - 1].quantity > 0.0 ==>
                    s[i].yoyChangePercent.value == Change(s[i - 1].quantity, s[i].quantity))
    {
      assert s[i - 1].quantity == pairs[i - 1].amount && s[i].quantity == pairs[i].amount;
      assert s[i].yoyChangePercent == Yoy(Some(pairs[i - 1].amount), pairs[i].amount);
    }
  }

  /** One point per counting year, years strictly ascending, each the sum of that
      year's quantities; the first point has no change, and a later one has a change
      exactly when the previous total is positive. */
  lemma GlobalSeriesSpec(records: seq<Record>)
    ensures var s := WithYoy(GlobalPairs(records));
            (forall i, j :: 0 <= i < j < |s| ==> s[i].year < s[j].year)
            && (forall y :: HasPointIn(s, y) <==> CountsIn(records, y))
            && (forall i :: 0 <= i < |s| ==> s[i].quantity == SumFor(YearEntries(records), s[i].year))
            && YoyChained(s)
  {
    var entries := YearEntries(records);
    var totals := GroupSum(entries);
    var years := SortedUniqueInts(Keys(totals));
    var pairs := Pairs(totals, years);
    var s := WithYoy(pairs);
    assert forall i :: 0 <= i < |s| ==> s[i].year == years[i] && s[i].quantity == SumFor(totals, years[i]);
    forall y ensures HasPointIn(s, y) <==> CountsIn(records, y) {
      YearEntriesSpec(records, y);
      KeysHasKey(totals, y);
      if y in years {
        var i :| 0 <= i < |years| && years[i] == y;
        assert s[i].year == y;
      }
    }
    WithYoyChained(pairs);
  }

  /** The per-country branch: the counting records in input order, each compared
      with the one emitted before it. */
  method CountrySeries(records: seq<Record>) returns (data: seq<Point>)
    ensures data == WithYoy(YearEntries(records))
  {
    data := [];
    var prev: Option<real> := None;
    for i := 0 to |records|
      invariant data == WithYoy(YearEntries(records[..i]))
      invariant prev == LastAmount(YearEntries(records[..i]))
    {
      var r := records[i];
      ghost var before := YearEntries(records[..i]);
      YearEntriesSnoc(records, i);
      if r.year.Some? && r.year.value != 0 && r.quantity.Some? {
        var q := r.quantity.value;
        var yoy := ChangeFrom(prev, q);
        WithYoySnoc(before, Entry(r.year.value, q));
        data := data + [Point(r.year.value, q, yoy)];
        prev := Some(q);
        assert LastAmount(before + [Entry(r.year.value, q)]) == Some(q);
      }
    }
    assert records[..|records|] == records;
  }

  /** The per-country points are exactly the counting records, in order: record k
      of them gives point k, compared with record k - 1. */
  lemma CountrySeriesSpec(records: seq<Record>)
    ensures var s := WithYoy(YearEntries(records));
            var e := YearEntries(records);
            (forall i :: 0 <= i < |s| ==> s[i].year == e[i].key && s[i].quantity == e[i].amount)
            && (forall x :: x in e <==> exists r :: r in records && Counts(r) && x == Entry(r.year.value, r.quantity.value))
            && YoyChained(s)
  {
    YearEntriesMembers(records);
    WithYoyChained(YearEntries(records));
  }

  lemma {:induction false} YearEntriesMembers(records: seq<Record>)
    ensures forall x :: x in YearEntries(records) <==>
              exists r :: r in records && Counts(r) && x == Entry(r.year.value, r.quantity.value)
  {
    if records != [] {
      var init := records[..|records| - 1];
      YearEntriesMembers(init);
      assert forall r :: r in records <==> r in init || r == records[|records| - 1];
    }
  }

  datatype TimeSeriesResponse = TimeSeriesResponse(commodity: string, country: Option<string>, statisticType: string,
                                                   units: Option<string>, data: seq<Point>)

  /** `get_time_series`: 404 on no records; without a country the global series,
      otherwise the country of the first record with its units and the
      per-country series. */
  method GetTimeSeries(commodity: string, country: Option<string>, statisticType: string, records: seq<Record>)
    returns (r: Result<TimeSeriesResponse, HttpError>)
    ensures records == [] <==> r == Err(NotFound)
    ensures records != [] && (country.None? || country.value == "") ==>
              r == Ok(TimeSeriesResponse(commodity, None, statisticType, LastUnits(records), WithYoy(GlobalPairs(records))))
    ensures records != [] && country.Some? && country.value != "" ==>
              r == Ok(TimeSeriesResponse(commodity, Some(records[0].country), statisticType, records[0].units,
                                         WithYoy(YearEntries(records))))
  {
    if records == [] {
      return Err(NotFound);
    }
    if country.None? || country.value == "" {
      var data, units := GlobalSeries(records);
      return Ok(TimeSeriesResponse(commodity, None, statisticType, units, data));
    }
    var data := CountrySeries(records);
    return Ok(TimeSeriesResponse(commodity, Some(records[0].country), statisticType, records[0].units, data));
  }

  // ----- compare_countries -----

  /** `[c.strip() for c in countries.split(",")]`: one name more than there are
      commas, each the stripped text between two commas (or an end). */
  function SplitCountries(countries: string): (r: seq<string>)
    ensures |r| == Occurrences(countries, ',') + 1
    ensures forall i :: 0 <= i < |r| ==> Stripped(r[i]) && ',' !in r[i]
    ensures var parts := Split(countries, ',');
            Join(parts, ",") == countries
            && |r| == |parts| && forall i :: 0 <= i < |r| ==> r[i] == Strip(parts[i])
  {
    var parts := Split(countries, ',');
    SplitParts(countries, ',');
    seq(|parts|, i requires 0 <= i < |parts| =>
      var s := Strip(parts[i]); StripWithin(parts[i]); s)
  }

  /** A point of the comparison, with its units. */
  datatype ComparePoint = ComparePoint(year: Option<int>, quantity: Option<real>, units: Option<string>)

  /** One country's entry in the comparison dictionary. */
  datatype CountryData = CountryData(country: string, data: seq<ComparePoint>)

  /** The first point of the country's data has non-empty units. */
  predicate HasUnits(d: CountryData) {
    d.data != [] && d.data[0].units.Some? && d.data[0].units.value != ""
  }

  /** The units of the first country, in dictionary order, whose first point has them. */
  function FirstUnits(comparison: seq<CountryData>): Option<string> {
    if comparison == [] then None
    else if HasUnits(comparison[0]) then comparison[0].data[0].units
    else FirstUnits(comparison[1..])
  }

  lemma {:induction false} FirstUnitsSpec(comparison: seq<CountryData>)
    ensures FirstUnits(comparison).None? <==> forall k :: 0 <= k < |comparison| ==> !HasUnits(comparison[k])
    ensures FirstUnits(comparison).Some? ==>
              exists k :: 0 <= k < |comparison| && HasUnits(comparison[k])
                          && FirstUnits(comparison) == comparison[k].data[0].units
                          && forall j :: 0 <= j < k ==> !HasUnits(comparison[j])
  {
    if comparison != [] && !HasUnits(comparison[0]) {
      var rest := comparison[1..];
      FirstUnitsSpec(rest);
      assert forall k :: 1 <= k < |comparison| ==> comparison[k] == rest[k - 1];
      if FirstUnits(rest).Some? {
        var k :| 0 <= k < |rest| && HasUnits(rest[k]) && FirstUnits(rest) == rest[k].data[0].units
                 && forall j :: 0 <= j < k ==> !HasUnits(rest[j]);
        assert comparison[k + 1] == rest[k];
      }
    }
  }

  datatype ComparisonResponse = ComparisonResponse(commodity: string, statisticType: string, units: Option<string>,
                                                   countries: seq<CountryData>)

  /** `compare_countries` on the client's comparison: 404 when it is empty, else the
      comparison with the units found by the loop that stops at the first country
      having them. */
  method CompareCountries(commodity: string, statisticType: string, comparison: seq<CountryData>)
    returns (r: Result<ComparisonResponse, HttpError>)
    ensures comparison == [] <==> r == Err(NotFound)
    ensures comparison != [] ==> r == Ok(ComparisonResponse(commodity, statisticType, FirstUnits(comparison), comparison))
  {
    if comparison == [] {
      return Err(NotFound);
    }
    var units: Option<string> := None;
    var i := 0;
    while i < |comparison|
      invariant 0 <= i <= |comparison|
      invariant units.None?
      invariant FirstUnits(comparison) == FirstUnits(comparison[i..])
    {
      var d := comparison[i];
      if d.data != [] && d.data[0].units.Some? && d.data[0].units.value != "" {
        units := d.data[0].units;
        break;
      }
      assert comparison[i..][1..] == comparison[i + 1..];
      i := i + 1;
    }
    return Ok(ComparisonResponse(commodity, statisticType, units, comparison));
  }

  // ----- get_country_profile -----

  /** The years the profile can default to: the non-zero ones. */
  function AvailableYears(records: seq<Record>): (r: seq<int>)
    ensures forall y :: y in r <==> exists x :: x in records && x.year.Some? && x.year.value != 0 && x.year.value == y
  {
    if records == [] then []
    else
      var init := records[..|records| - 1];
      var last := records[|records| - 1];
      assert forall x :: x in records <==> x in init || x == last;
      if last.year.Some? && last.year.value != 0 then AvailableYears(init) + [last.year.value] else AvailableYears(init)
  }

  /** The year profiled: the requested one, else the latest available one, else none. */
  function ProfileYear(records: seq<Record>, year: Option<int>): Option<int> {
    if year.None? && AvailableYears(records) != [] then Some(Max(AvailableYears(records))) else year
  }

  /** The record is summed: its year equals the profiled one (both missing counts
      as equal) and it has a quantity. */
  predicate Selected(r: Record, year: Option<int>) {
    r.year == year && r.quantity.Some?
  }

  function CommodityEntries(records: seq<Record>, year: Option<int>): seq<Entry<string>> {
    if records == [] then []
    else
      var init := CommodityEntries(records[..|records| - 1], year);
      var last := records[|records| - 1];
      if Selected(last, year) then init + [Entry(last.commodity, last.quantity.value)] else init
  }

  predicate HasSelected(records: seq<Record>, year: Option<int>, k: string) {
    exists i :: 0 <= i < |records| && Selected(records[i], year) && records[i].commodity == k
  }

  lemma {:induction false} CommodityEntriesKeys(records: seq<Record>, year: Option<int>, k: string)
    ensures HasKey(CommodityEntries(records, year), k) <==> HasSelected(records, year, k)
  {
    if records != [] {
      var init := records[..|records| - 1];
      var last := records[|records| - 1];
      var e := CommodityEntries(records, year);
      CommodityEntriesKeys(init, year, k);
      if HasKey(CommodityEntries(init, year), k) {
        var i :| 0 <= i < |CommodityEntries(init, year)| && CommodityEntries(init, year)[i].key == k;
        assert e[i].key == k;
      }
      if HasSelected(init, year, k) {
        var i :| 0 <= i < |init| && Selected(init[i], year) && init[i].commodity == k;
        assert records[i] == init[i];
      }
      if HasKey(e, k) && !(Selected(last, year) && last.commodity == k) {
        var i :| 0 <= i < |e| && e[i].key == k;
        assert CommodityEntries(init, year)[i].key == k;
      }
      if HasSelected(records, year, k) && !(Selected(last, year) && last.commodity == k) {
        var i :| 0 <= i < |records| && Selected(records[i], year) && records[i].commodity == k;
        assert init[i] == records[i];
      }
      if Selected(last, year) && last.commodity == k {
        assert e[|e| - 1].key == k;
      }
    }
  }

  /** The units stored when the commodity was first seen. */
  function UnitsFirstSeen(records: seq<Record>, year: Option<int>, k: string): Option<string> {
    if records == [] then None
    else if Selected(records[0], year) && records[0].commodity == k then records[0].units
    else UnitsFirstSeen(records[1..], year, k)
  }

  lemma {:induction false} UnitsFirstSeenSpec(records: seq<Record>, year: Option<int>, k: string)
    requires HasSelected(records, year, k)
    ensures exists i :: 0 <= i < |records| && Selected(records[i], year) && records[i].commodity == k
                        && UnitsFirstSeen(records, year, k) == records[i].units
                        && forall j :: 0 <= j < i ==> !(Selected(records[j], year) && records[j].commodity == k)
  {
    if !(Selected(records[0], year) && records[0].commodity == k) {
      var rest := records[1..];
      var i :| 0 <= i < |records| && Selected(records[i], year) && records[i].commodity == k;
      assert rest[i - 1] == records[i];
      UnitsFirstSeenSpec(rest, year, k);
      var m :| 0 <= m < |rest| && Selected(rest[m], year) && rest[m].commodity == k
               && UnitsFirstSeen(rest, year, k) == rest[m].units
               && forall j :: 0 <= j < m ==> !(Selected(rest[j], year) && rest[j].commodity == k);
      assert records[m + 1] == rest[m];
      assert forall j :: 1 <= j < m + 1 ==> records[j] == rest[j - 1];
    }
  }

  /** Appending a record does not change the units of a commodity already seen. */
  lemma {:induction false} UnitsFirstSeenSnoc(records: seq<Record>, x: Record, year: Option<int>, k: string)
    requires HasSelected(records, year, k)
    ensures UnitsFirstSeen(records + [x], year, k) == UnitsFirstSeen(records, year, k)
  {
    assert (records + [x])[0] == records[0];
    if !(Selected(records[0], year) && records[0].commodity == k) {
      var i :| 0 <= i < |records| && Selected(records[i], year) && records[i].commodity == k;
      assert records[1..][i - 1] == records[i];
      assert (records + [x])[1..] == records[1..] + [x];
      UnitsFirstSeenSnoc(records[1..], x, year, k);
    }
  }

  /** One commodity of the profile. */
  datatype ProfileItem = ProfileItem(commodity: string, quantity: real, units: Option<string>)

  function NegQuantity(x: ProfileItem): real { -x.quantity }

  /** The commodity totals in first-seen order, before sorting. */
  function ProfileItems(records: seq<Record>, year: Option<int>): seq<ProfileItem> {
    var g := GroupSum(CommodityEntries(records, year));
    seq(|g|, i requires 0 <= i < |g| => ProfileItem(g[i].key, g[i].amount, UnitsFirstSeen(records, year, g[i].key)))
  }

  datatype ProfileResponse = ProfileResponse(country: string, year: Option<int>, statisticType: string,
                                             commodities: seq<ProfileItem>)

  /** What `get_country_profile` answers for the client's records. */
  function ProfileOf(year: Option<int>, statisticType: string, records: seq<Record>): Result<ProfileResponse, HttpError> {
    if records == [] then Err(NotFound)
    else
      var y := ProfileYear(records, year);
      Ok(ProfileResponse(records[0].country, y, statisticType, SortBy(ProfileItems(records, y), NegQuantity)))
  }

  lemma CommodityEntriesSnoc(records: seq<Record>, i: int, year: Option<int>)
    requires 0 <= i < |records|
    ensures CommodityEntries(records[..i + 1], year)
            == if Selected(records[i], year) then CommodityEntries(records[..i], year) + [Entry(records[i].commodity, records[i].quantity.value)]
               else CommodityEntries(records[..i], year)
  {
    assert records[..i + 1][..i] == records[..i];
  }

  /** The dictionary after each record: its totals, and the units stored for each
      commodity present. */
  ghost predicate TotalsAfter(records: seq<Record>, year: Option<int>, totals: seq<Entry<string>>,
                        unitsOf: map<string, Option<string>>)
  {
    totals == GroupSum(CommodityEntries(records, year))
    && (forall k :: k in unitsOf <==> HasKey(totals, k))
    && forall k :: k in unitsOf ==> unitsOf[k] == UnitsFirstSeen(records, year, k)
  }

  /** The units already stored stay right when one more record is read. */
  lemma UnitsKept(records: seq<Record>, x: Record, year: Option<int>, totals: seq<Entry<string>>,
                  unitsOf: map<string, Option<string>>)
    requires TotalsAfter(records, year, totals, unitsOf)
    ensures forall k :: k in unitsOf ==> unitsOf[k] == UnitsFirstSeen(records + [x], year, k)
  {
    forall k | k in unitsOf ensures unitsOf[k] == UnitsFirstSeen(records + [x], year, k) {
      CommodityEntriesKeys(records, year, k);
      UnitsFirstSeenSnoc(records, x, year, k);
    }
  }

  /** A record that is not selected changes nothing. */
  lemma TotalsSkip(records: seq<Record>, x: Record, year: Option<int>, totals: seq<Entry<string>>,
                   unitsOf: map<string, Option<string>>)
    requires TotalsAfter(records, year, totals, unitsOf) && !Selected(x, year)
    ensures TotalsAfter(records + [x], year, totals, unitsOf)
  {
    assert (records + [x])[..|records|] == records;
    assert CommodityEntries(records + [x], year) == CommodityEntries(records, year);
    UnitsKept(records, x, year, totals, unitsOf);
  }

  /** A selected record of a commodity already seen adds to its total and leaves
      the stored units alone. */
  lemma TotalsAdd(records: seq<Record>, x: Record, year: Option<int>, totals: seq<Entry<string>>,
                  unitsOf: map<string, Option<string>>)
    requires TotalsAfter(records, year, totals, unitsOf) && Selected(x, year) && HasKey(totals, x.commodity)
    ensures TotalsAfter(records + [x], year, Accumulate(totals, Entry(x.commodity, x.quantity.value)), unitsOf)
  {
    var e := Entry(x.commodity, x.quantity.value);
    assert (records + [x])[..|records|] == records;
    assert CommodityEntries(records + [x], year) == CommodityEntries(records, year) + [e];
    GroupSumSnoc(CommodityEntries(records, year), e);
    UnitsKept(records, x, year, totals, unitsOf);
  }

  /** A selected record of a new commodity starts its total and stores its units. */
  lemma TotalsNew(records: seq<Record>, x: Record, year: Option<int>, totals: seq<Entry<string>>,
                  unitsOf: map<string, Option<string>>)
    requires TotalsAfter(records, year, totals, unitsOf) && Selected(x, year) && !HasKey(totals, x.commodity)
    ensures TotalsAfter(records + [x], year, Accumulate(totals, Entry(x.commodity, x.quantity.value)),
                        unitsOf[x.commodity := x.units])
  {
    var e := Entry(x.commodity, x.quantity.value);
    var next, nextUnits := Accumulate(totals, e), unitsOf[x.commodity := x.units];
    assert (records + [x])[..|records|] == records;
    assert CommodityEntries(records + [x], year) == CommodityEntries(records, year) + [e];
    GroupSumSnoc(CommodityEntries(records, year), e);
    assert next == GroupSum(CommodityEntries(records + [x], year));
    assert forall k :: k in nextUnits <==> HasKey(next, k);
    UnitsKept(records, x, year, totals, unitsOf);
    CommodityEntriesKeys(records, year, x.commodity);
    FirstSeenAtEnd(records, x, year);
    forall k | k in nextUnits ensures nextUnits[k] == UnitsFirstSeen(records + [x], year, k) {
      if k != x.commodity {
        assert k in unitsOf;
      }
    }
  }

  /** One pass of the profile loop: a selected record adds its quantity to its
      commodity's total, storing its units when the commodity is new. */
  method ReadRecord(ghost records: seq<Record>, x: Record, year: Option<int>, totals: seq<Entry<string>>,
                    unitsOf: map<string, Option<string>>)
    returns (totals': seq<Entry<string>>, unitsOf': map<string, Option<string>>)
    requires TotalsAfter(records, year, totals, unitsOf)
    ensures TotalsAfter(records + [x], year, totals', unitsOf')
  {
    totals', unitsOf' := totals, unitsOf;
    if x.year == year && x.quantity.Some? {
      if !HasKey(totals, x.commodity) {
        TotalsNew(records, x, year, totals, unitsOf);
        unitsOf' := unitsOf[x.commodity := x.units];
      } else {
        TotalsAdd(records, x, year, totals, unitsOf);
      }
      totals' := Accumulate(totals, Entry(x.commodity, x.quantity.value));
    } else {
      TotalsSkip(records, x, year, totals, unitsOf);
    }
  }

  /** The profile loop: the totals per commodity, in a dictionary that keeps the
      units of the first record seen for each. */
  method CommodityTotals(records: seq<Record>, year: Option<int>)
    returns (totals: seq<Entry<string>>, unitsOf: map<string, Option<string>>)
    ensures TotalsAfter(records, year, totals, unitsOf)
  {
    totals := [];
    unitsOf := map[];
    for i := 0 to |records|
      invariant TotalsAfter(records[..i], year, totals, unitsOf)
    {
      assert records[..i + 1] == records[..i] + [records[i]];
      totals, unitsOf := ReadRecord(records[..i], records[i], year, totals, unitsOf);
    }
    assert records[..|records|] == records;
  }

  /** The profile handler: the year, the totals, then the entries sorted by
      quantity, largest first. */
  method GetCountryProfile(year: Option<int>, statisticType: string, records: seq<Record>)
    returns (r: Result<ProfileResponse, HttpError>)
    ensures r == ProfileOf(year, statisticType, records)
  {
    if records == [] {
      return Err(NotFound);
    }
    var available := AvailableYears(records);
    var y := year;
    if y.None? && available != [] {
      y := Some(Max(available));
    }
    var totals, unitsOf := CommodityTotals(records, y);
    var items := ItemsOf(records, y, totals, unitsOf);
    r := Ok(ProfileResponse(records[0].country, y, statisticType, SortBy(items, NegQuantity)));
  }

  /** The profile entries built from the totals and the first-seen units. */
  method ItemsOf(ghost records: seq<Record>, y: Option<int>, totals: seq<Entry<string>>,
                 unitsOf: map<string, Option<string>>) returns (items: seq<ProfileItem>)
    requires TotalsAfter(records, y, totals, unitsOf)
    ensures items == ProfileItems(records, y)
  {
    assert forall i :: 0 <= i < |totals| ==> totals[i].key in unitsOf by {
      forall i | 0 <= i < |totals| ensures totals[i].key in unitsOf {
        assert HasKey(totals, totals[i].key);
      }
    }
    items := seq(|totals|, i requires 0 <= i < |totals| => ProfileItem(totals[i].key, totals[i].amount, unitsOf[totals[i].key]));
  }

  /** A commodity first seen in the last record takes that record's units. */
  lemma {:induction false} FirstSeenAtEnd(records: seq<Record>, x: Record, year: Option<int>)
    requires Selected(x, year) && !HasSelected(records, year, x.commodity)
    ensures UnitsFirstSeen(records + [x], year, x.commodity) == x.units
    decreases |records|
  {
    if records == [] {
      assert [x][0] == x;
    } else {
      assert (records + [x])[0] == records[0];
      assert (records + [x])[1..] == records[1..] + [x];
      assert !HasSelected(records[1..], year, x.commodity) by {
        forall i | 0 <= i < |records[1..]| ensures !(Selected(records[1..][i], year) && records[1..][i].commodity == x.commodity) {
          assert records[1..][i] == records[i + 1];
        }
      }
      FirstSeenAtEnd(records[1..], x, year);
    }
  }

  /** Each sorted entry is one of the commodity totals, with its sum and its
      first-seen units. */
  lemma SortedItemSpec(records: seq<Record>, y: Option<int>, i: int)
    requires 0 <= i < |SortBy(ProfileItems(records, y), NegQuantity)|
    ensures var c := SortBy(ProfileItems(records, y), NegQuantity)[i];
            c.quantity == SumFor(CommodityEntries(records, y), c.commodity)
            && c.units == UnitsFirstSeen(records, y, c.commodity)
            && HasSelected(records, y, c.commodity)
  {
    var items := ProfileItems(records, y);
    var g := GroupSum(CommodityEntries(records, y));
    var c := SortBy(items, NegQuantity)[i];
    assert c in multiset(items);
    var m :| 0 <= m < |items| && items[m] == c;
    SumForDistinct(g, m);
    assert HasKey(g, c.commodity);
    CommodityEntriesKeys(records, y, c.commodity);
  }

  /** Every commodity with a summed record appears among the sorted entries. */
  lemma SortedItemPresent(records: seq<Record>, y: Option<int>, k: string)
    requires HasSelected(records, y, k)
    ensures exists i :: 0 <= i < |SortBy(ProfileItems(records, y), NegQuantity)|
                        && SortBy(ProfileItems(records, y), NegQuantity)[i].commodity == k
  {
    var items := ProfileItems(records, y);
    var g := GroupSum(CommodityEntries(records, y));
    CommodityEntriesKeys(records, y, k);
    var m :| 0 <= m < |g| && g[m].key == k;
    var c := SortBy(items, NegQuantity);
    assert items[m] in multiset(c);
    var i :| 0 <= i < |c| && c[i] == items[m];
  }

  predicate Listed(c: seq<ProfileItem>, k: string) {
    exists i :: 0 <= i < |c| && c[i].commodity == k
  }

  /** The year profiled is the requested one, else the latest non-zero year,
      which is chosen whenever some record has one. */
  lemma ProfileYearSpec(records: seq<Record>, year: Option<int>)
    ensures var y := ProfileYear(records, year);
            (year.Some? ==> y == year)
            && (year.None? ==> (y.Some? <==> exists x :: x in records && x.year.Some? && x.year.value != 0))
            && (year.None? && y.Some? ==> (exists x :: x in records && x.year == y && y.value != 0)
                                          && forall x :: x in records && x.year.Some? && x.year.value != 0 ==> x.year.value <= y.value)
  {
    var y := ProfileYear(records, year);
    if year.None? && exists x :: x in records && x.year.Some? && x.year.value != 0 {
      var x :| x in records && x.year.Some? && x.year.value != 0;
      assert x.year.value in AvailableYears(records);
    }
    if year.None? && y.Some? {
      forall x | x in records && x.year.Some? && x.year.value != 0 ensures x.year.value <= y.value {
        assert x.year.value in AvailableYears(records);
      }
    }
  }

  function CommodityName(x: ProfileItem): string { x.commodity }

  /** The test "the quantity is `q`". */
  function QuantityIs(q: real): ProfileItem -> bool {
    (x: ProfileItem) => x.quantity == q
  }

  /** Ties: the commodities are totalled in order of first appearance, and Python's
      stable `sorted(…, reverse=True)` keeps that order among equal quantities. */
  lemma ProfileTies(records: seq<Record>, y: Option<int>, q: real)
    ensures var items := ProfileItems(records, y);
            var firsts := FirstSeen(Keys(CommodityEntries(records, y)));
            |items| == |firsts|
            && (forall i :: 0 <= i < |items| ==> items[i].commodity == firsts[i])
            && Filter(SortBy(items, NegQuantity), QuantityIs(q)) == Filter(items, QuantityIs(q))
  {
    var g := GroupSum(CommodityEntries(records, y));
    GroupSumOrder(CommodityEntries(records, y));
    assert forall i :: 0 <= i < |g| ==> Keys(g)[i] == g[i].key;
    SortByStableAs(ProfileItems(records, y), NegQuantity, -q, QuantityIs(q));
  }

  /** The commodities come largest first, exactly one per commodity with a summed
      record of the year, each holding the sum of those quantities and the units
      of the first such record. */
  lemma ProfileCommodities(records: seq<Record>, y: Option<int>)
    ensures var c := SortBy(ProfileItems(records, y), NegQuantity);
            (forall i, j :: 0 <= i < j < |c| ==> c[i].quantity >= c[j].quantity)
            && (forall i, j :: 0 <= i < j < |c| ==> c[i].commodity != c[j].commodity)
            && (forall k :: Listed(c, k) <==> HasSelected(records, y, k))
            && forall i :: 0 <= i < |c| ==>
                 c[i].quantity == SumFor(CommodityEntries(records, y), c[i].commodity)
                 && c[i].units == UnitsFirstSeen(records, y, c[i].commodity)
  {
    var c := SortBy(ProfileItems(records, y), NegQuantity);
    assert forall i, j :: 0 <= i < j < |c| ==> NegQuantity(c[i]) <= NegQuantity(c[j]);
    SortedItemsDistinct(records, y);
    forall i | 0 <= i < |c|
      ensures c[i].quantity == SumFor(CommodityEntries(records, y), c[i].commodity)
              && c[i].units == UnitsFirstSeen(records, y, c[i].commodity)
    {
      SortedItemSpec(records, y, i);
    }
    forall k ensures Listed(c, k) <==> HasSelected(records, y, k) {
      if Listed(c, k) {
        var i :| 0 <= i < |c| && c[i].commodity == k;
        SortedItemSpec(records, y, i);
      }
      if HasSelected(records, y, k) {
        SortedItemPresent(records, y, k);
      }
    }
  }

  /** Sorting keeps the one-entry-per-commodity property of the totals. */
  lemma SortedItemsDistinct(records: seq<Record>, y: Option<int>)
    ensures DistinctBy(SortBy(ProfileItems(records, y), NegQuantity), CommodityName)
  {
    var items := ProfileItems(records, y);
    var g := GroupSum(CommodityEntries(records, y));
    assert forall i :: 0 <= i < |items| ==> CommodityName(items[i]) == g[i].key;
    DistinctByPerm(items, SortBy(items, NegQuantity), CommodityName);
  }

  /** 404 exactly for no records; otherwise the country of the first record, the
      year of `ProfileYear`, and the commodities of `ProfileCommodities`. */
  lemma ProfileSpec(year: Option<int>, statisticType: string, records: seq<Record>)
    ensures var r := ProfileOf(year, statisticType, records);
            (r.Err? <==> records == [])
            && (r.Ok? ==> r.value.country == records[0].country
                          && r.value.year == ProfileYear(records, year)
                          && r.value.commodities == SortBy(ProfileItems(records, r.value.year), NegQuantity))
  {
  }

  /** With no year requested and no non-zero year in the records, no year is
      chosen, and only records whose year is missing are summed. */
  lemma ProfileWithoutYears(records: seq<Record>, x: Record)
    requires forall r :: r in records ==> r.year.None? || r.year.value == 0
    ensures ProfileYear(records, None) == None
    ensures Selected(x, ProfileYear(records, None)) <==> x.year.None? && x.quantity.Some?
  {
  }
}
