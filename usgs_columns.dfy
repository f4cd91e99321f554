/** Column handling of the Mineral Commodity Summaries client: the role-to-column
    map and its inference, the wide-to-long reshape of world-production tables,
    and the choice of the data file among a catalogue item's files. */
module UsgsColumns {
  import opened Strings
  import opened Seqs
  import opened Tables
  import opened UsgsParse

  /** `ColumnMap`: the column playing each role; unit and statistic are optional. */
  datatype ColumnMap = ColumnMap(commodity: string, country: string, year: string, value: string,
                                 unit: Option<string>, statistic: Option<string>)

  /** The column found by the first keyword, in order, that finds one. */
  function FindFirst(columns: seq<string>, keywords: seq<string>): Option<string> {
    if keywords == [] then None
    else
      var here := FindColumn(columns, [keywords[0]]);
      if here.Some? then here else FindFirst(columns, keywords[1..])
  }

  /** `FindFirst` answers with the first keyword that finds a column, and with
      nothing exactly when no keyword does. */
  lemma {:induction false} FindFirstSpec(columns: seq<string>, keywords: seq<string>)
    ensures FindFirst(columns, keywords).None?
            <==> forall i :: 0 <= i < |keywords| ==> FindColumn(columns, [keywords[i]]).None?
    ensures FindFirst(columns, keywords).Some? ==>
              exists i :: 0 <= i < |keywords| && FindColumn(columns, [keywords[i]]) == FindFirst(columns, keywords)
                          && forall j :: 0 <= j < i ==> FindColumn(columns, [keywords[j]]).None?
  {
    if keywords != [] && FindColumn(columns, [keywords[0]]).None? {
      var rest := keywords[1..];
      FindFirstSpec(columns, rest);
      assert forall i :: 1 <= i < |keywords| ==> keywords[i] == rest[i - 1];
      if FindFirst(columns, rest).Some? {
        var i :| 0 <= i < |rest| && FindColumn(columns, [rest[i]]) == FindFirst(columns, rest)
                 && forall j :: 0 <= j < i ==> FindColumn(columns, [rest[j]]).None?;
        assert FindColumn(columns, [keywords[i + 1]]) == FindFirst(columns, keywords);
      }
    }
  }

  /** `_find_column(cols, [k1]) or _find_column(cols, [k2]) or ...` is `FindFirst`:
      a column found through a non-empty keyword is never the falsy "". */
  lemma {:induction false} OrChainIsFindFirst(columns: seq<string>, keywords: seq<string>)
    requires |keywords| > 0 && forall k :: k in keywords ==> k != ""
    ensures FindFirst(columns, keywords)
            == OrElse(FindColumn(columns, [keywords[0]]), FindFirst(columns, keywords[1..]))
  {
    assert keywords[0] in keywords;
    if FindColumn(columns, [keywords[0]]).Some? {
      FoundColumnNonEmpty(columns, keywords[0]);
    }
  }

  /** The four roles `_infer_columns` requires, in the order it reports them. */
  const RequiredRoles: seq<string> := ["commodity", "country", "year", "value"]

  /** The keywords tried for each role, in priority order. */
  function RoleKeywords(role: string): seq<string> {
    if role == "commodity" then ["commodity", "mineral"]
    else if role == "country" then ["country", "nation"]
    else if role == "year" then ["year"]
    else if role == "value" then ["value", "quantity", "production", "amount"]
    else if role == "unit" then ["unit"]
    else if role == "statistic" then ["statistic", "measure"]
    else []
  }

  /** The column a role resolves to. */
  function Lookup(columns: seq<string>, role: string): Option<string> {
    FindFirst(columns, RoleKeywords(role))
  }

  /** `missing`: the roles, in order, that resolve to no column. */
  function Missing(columns: seq<string>, roles: seq<string>): (m: seq<string>)
    ensures forall x :: x in m <==> x in roles && Lookup(columns, x).None?
    ensures (forall i, j :: 0 <= i < j < |roles| ==> roles[i] != roles[j])
            ==> forall i, j :: 0 <= i < j < |m| ==> m[i] != m[j]
  {
    if roles == [] then []
    else
      var init := roles[..|roles| - 1];
      var last := roles[|roles| - 1];
      var m := Missing(columns, init);
      assert roles == init + [last];
      if Lookup(columns, last).None? then
        assert (forall i, j :: 0 <= i < j < |roles| ==> roles[i] != roles[j]) ==> last !in init;
        m + [last]
      else m
  }

  /** `_infer_columns`: a map when the four required roles all resolve; otherwise
      the error lists exactly the unresolved required roles, each once. */
  function InferColumns(columns: seq<string>): (r: Result<ColumnMap, seq<string>>)
    ensures r.Err? <==> exists role :: role in RequiredRoles && Lookup(columns, role).None?
    ensures r.Err? ==> forall role :: role in r.error <==> role in RequiredRoles && Lookup(columns, role).None?
    ensures r.Err? ==> |r.error| > 0 && forall i, j :: 0 <= i < j < |r.error| ==> r.error[i] != r.error[j]
    ensures r.Ok? ==> (Some(r.value.commodity) == Lookup(columns, "commodity")
                       && Some(r.value.country) == Lookup(columns, "country")
                       && Some(r.value.year) == Lookup(columns, "year")
                       && Some(r.value.value) == Lookup(columns, "value")
                       && r.value.unit == Lookup(columns, "unit")
                       && r.value.statistic == Lookup(columns, "statistic"))
  {
    var missing := Missing(columns, RequiredRoles);
    RequiredMissing(columns);
    if missing != [] then
      assert missing[0] in missing;
      Err(missing)
    else
      Ok(ColumnMap(Lookup(columns, "commodity").value, Lookup(columns, "country").value,
                   Lookup(columns, "year").value, Lookup(columns, "value").value,
                   Lookup(columns, "unit"), Lookup(columns, "statistic")))
  }

  /** The required roles that do not resolve are listed once each, and when none
      is listed all four resolve. */
  lemma RequiredMissing(columns: seq<string>)
    ensures var m := Missing(columns, RequiredRoles);
            (forall i, j :: 0 <= i < j < |m| ==> m[i] != m[j])
            && (m == [] ==> Lookup(columns, "commodity").Some? && Lookup(columns, "country").Some?
                            && Lookup(columns, "year").Some? && Lookup(columns, "value").Some?)
  {
    assert "commodity" in RequiredRoles && "country" in RequiredRoles;
    assert "year" in RequiredRoles && "value" in RequiredRoles;
  }

  /** A column that only mentions "mineral" still serves as the commodity column,
      but a "commodity" column always takes precedence over it. */
  lemma CommodityPrecedence(columns: seq<string>, i: int)
    requires 0 <= i < |columns| && HasAll(columns[i], ["commodity"])
    ensures Lookup(columns, "commodity").Some?
    ensures HasAll(Lookup(columns, "commodity").value, ["commodity"])
  {
    assert RoleKeywords("commodity") == ["commodity", "mineral"];
    FindColumnSpec(columns, ["commodity"]);
    var r := FindColumn(columns, ["commodity"]);
    var k :| 0 <= k < |columns| && columns[k] == r.value && HasAll(columns[k], ["commodity"])
             && forall j :: 0 <= j < k ==> !HasAll(columns[j], ["commodity"]);
  }

  /** `re.sub(r"_+", "_", s)`: every run of underscores becomes one. */
  function CollapseUnderscores(s: string): (r: string)
    ensures |r| <= |s|
    ensures forall i :: 0 <= i < |r| - 1 ==> !(r[i] == '_' && r[i + 1] == '_')
    ensures |s| > 0 ==> |r| > 0 && r[0] == s[0]
    ensures Filter(r, NonUnderscore) == Filter(s, NonUnderscore)
    ensures '_' in r <==> '_' in s
  {
    if |s| < 2 then s
    else
      var t := CollapseUnderscores(s[1..]);
      CollapseStep(s, t);
      if s[0] == '_' && s[1] == '_' then t else [s[0]] + t
  }

  /** One step of the collapse: what holds of the collapsed tail carries over
      to the whole string. */
  lemma CollapseStep(s: string, t: string)
    requires |s| >= 2
    requires |t| <= |s| - 1 && |t| > 0 && t[0] == s[1]
    requires forall i :: 0 <= i < |t| - 1 ==> !(t[i] == '_' && t[i + 1] == '_')
    requires Filter(t, NonUnderscore) == Filter(s[1..], NonUnderscore)
    requires '_' in t <==> '_' in s[1..]
    ensures var r := if s[0] == '_' && s[1] == '_' then t else [s[0]] + t;
            |r| <= |s| && r[0] == s[0]
            && (forall i :: 0 <= i < |r| - 1 ==> !(r[i] == '_' && r[i + 1] == '_'))
            && Filter(r, NonUnderscore) == Filter(s, NonUnderscore)
            && ('_' in r <==> '_' in s)
  {
    var h, u := [s[0]], s[1..];
    assert Filter(s, NonUnderscore) == Filter(h, NonUnderscore) + Filter(u, NonUnderscore)
           && ('_' in s <==> s[0] == '_' || '_' in u) by {
      assert s == h + u;
      FilterAppend(h, u, NonUnderscore);
    }
    if s[0] == '_' && s[1] == '_' {
      FilterSingle(s[0], NonUnderscore);
      assert s[1] in u;
    } else {
      FilterAppend(h, t, NonUnderscore);
      var r := h + t;
      forall i | 0 <= i < |r| - 1 ensures !(r[i] == '_' && r[i + 1] == '_') {
        if i > 0 { assert r[i] == t[i - 1] && r[i + 1] == t[i]; }
      }
    }
  }

  lemma {:induction false} CollapseNoop(s: string)
    requires forall i :: 0 <= i < |s| - 1 ==> !(s[i] == '_' && s[i + 1] == '_')
    ensures CollapseUnderscores(s) == s
  {
    if |s| >= 2 {
      CollapseNoop(s[1..]);
      assert s == [s[0]] + s[1..];
    }
  }

  /** Collapsing is idempotent. */
  lemma CollapseIdempotent(s: string)
    ensures CollapseUnderscores(CollapseUnderscores(s)) == CollapseUnderscores(s)
  {
    CollapseNoop(CollapseUnderscores(s));
  }

  /** What `re.match(r"prod(_est)?_?(\d{4})", name)` captures. */
  datatype ProdMatch = ProdMatch(est: bool, year: nat)

  lemma UnderscoreNotDigits(s: string, i: nat)
    ensures i < |s| && s[i] == '_' ==> !FourDigitsAt(s, i)
  {
    if FourDigitsAt(s, i) {
      assert s[i..i + 4][0] == s[i];
    }
  }

  /** `_?(\d{4})` at position `i`, trying the underscore first as the regex does. */
  function YearAt(s: string, i: nat): (r: Option<nat>)
    ensures r.Some? ==> r.value <= 9999
    ensures r.None? <==> !(i < |s| && s[i] == '_' && FourDigitsAt(s, i + 1)) && !FourDigitsAt(s, i)
    ensures r.Some? && i < |s| && s[i] == '_' ==> FourDigitsAt(s, i + 1) && r.value == DigitsValue(s[i + 1..i + 5])
    ensures r.Some? && !(i < |s| && s[i] == '_') ==> FourDigitsAt(s, i) && r.value == DigitsValue(s[i..i + 4])
  {
    UnderscoreNotDigits(s, i);
    if i < |s| && s[i] == '_' && FourDigitsAt(s, i + 1) then
      FourDigitsBound(s[i + 1..i + 5]);
      Some(DigitsValue(s[i + 1..i + 5]))
    else if FourDigitsAt(s, i) then
      FourDigitsBound(s[i..i + 4]);
      Some(DigitsValue(s[i..i + 4]))
    else None
  }

  /** The match of `prod(_est)?_?(\d{4})` at the start of `name`: the optional
      group is tried first and dropped only if the rest then fails. */
  function MatchProd(name: string): (r: Option<ProdMatch>)
    ensures r.Some? ==> StartsWith(name, "prod") && r.value.year <= 9999
  {
    if !StartsWith(name, "prod") then None
    else if StartsWith(name[4..], "_est") && YearAt(name, 8).Some? then
      Some(ProdMatch(true, YearAt(name, 8).value))
    else
      match YearAt(name, 4)
      case Some(y) => Some(ProdMatch(false, y))
      case None => None
  }

  /** The names `prod(_est)?_?(\d{4})` matches at their start, with the estimate
      group present when `est` and the four digits starting at `j`. */
  predicate ProdPattern(name: string, est: bool, j: int) {
    var base := if est then 8 else 4;
    && StartsWith(name, "prod")
    && (est ==> StartsWith(name[4..], "_est"))
    && FourDigitsAt(name, j)
    && (j == base || (j == base + 1 && name[base] == '_'))
  }

  /** A header matches exactly when it has the pattern's shape, and the match
      carries the year its four digits spell. Both the estimate group and the
      underscore are determined by the name, so the match is unique. */
  lemma MatchProdSpec(name: string)
    ensures MatchProd(name).Some? <==> exists est: bool, j :: ProdPattern(name, est, j)
    ensures MatchProd(name).Some? ==>
              exists j :: ProdPattern(name, MatchProd(name).value.est, j)
                          && MatchProd(name).value.year == DigitsValue(name[j..j + 4])
  {
    var r := MatchProd(name);
    if r.Some? {
      if r.value.est {
        MatchProdPattern(name, true, 8);
      } else {
        MatchProdPattern(name, false, 4);
      }
    }
    if exists est: bool, j :: ProdPattern(name, est, j) {
      var est: bool, j :| ProdPattern(name, est, j);
      if est {
        assert YearAt(name, 8).Some?;
      } else {
        assert YearAt(name, 4).Some?;
      }
    }
  }

  /** The year `YearAt` reads past the prefix is a match of the pattern. */
  lemma MatchProdPattern(name: string, est: bool, base: nat)
    requires StartsWith(name, "prod") && base == (if est then 8 else 4)
    requires est ==> StartsWith(name[4..], "_est")
    requires YearAt(name, base).Some?
    ensures exists j :: ProdPattern(name, est, j) && YearAt(name, base).value == DigitsValue(name[j..j + 4])
  {
    if base < |name| && name[base] == '_' {
      assert ProdPattern(name, est, base + 1);
    } else {
      assert ProdPattern(name, est, base);
    }
  }

  /** The estimate flag is set exactly when the name starts with "prod_est". */
  lemma MatchProdEstimate(name: string)
    requires MatchProd(name).Some?
    ensures MatchProd(name).value.est <==> StartsWith(name, "prod_est")
  {
    if StartsWith(name, "prod_est") {
      assert name[..8] == "prod_est";
      assert name[4] == '_' && name[5] == 'e';
      assert !FourDigitsAt(name, 4) by { assert name[4..8][0] == name[4]; }
      assert !FourDigitsAt(name, 5) by { assert name[5..9][0] == name[5]; }
    }
    if MatchProd(name).value.est {
      assert name[4..][..4] == name[4..8];
    }
  }

  /** One wide production column: its header, the embedded year and the statistic. */
  datatype ProdColumn = ProdColumn(col: string, year: nat, statistic: string)

  function StatisticFor(est: bool): string {
    if est then "Production (est)" else "Production"
  }

  /** The production column a header denotes, if any. */
  function AsProdColumn(col: string): Option<ProdColumn> {
    match MatchProd(CollapseUnderscores(col))
    case Some(m) => Some(ProdColumn(col, m.year, StatisticFor(m.est)))
    case None => None
  }

  /** `prod_cols`: the matching columns, in column order. */
  function ProdColumns(columns: seq<string>): (r: seq<ProdColumn>)
    ensures |r| <= |columns|
    ensures forall p :: p in r ==> AsProdColumn(p.col) == Some(p) && p.col in columns
  {
    if columns == [] then []
    else
      var init := ProdColumns(columns[..|columns| - 1]);
      var m := AsProdColumn(columns[|columns| - 1]);
      if m.Some? then init + [m.value] else init
  }

  predicate IsProdHeader(col: string) { AsProdColumn(col).Some? }

  /** The headers of a list of production columns, in order. */
  function Headers(ps: seq<ProdColumn>): (r: seq<string>)
    ensures |r| == |ps| && forall i :: 0 <= i < |ps| ==> r[i] == ps[i].col
  {
    seq(|ps|, i requires 0 <= i < |ps| => ps[i].col)
  }

  /** Every matching header is collected, once and in column order. */
  lemma {:induction false} ProdColumnsOrder(columns: seq<string>)
    ensures Headers(ProdColumns(columns)) == Filter(columns, IsProdHeader)
  {
    if columns != [] {
      var init := columns[..|columns| - 1];
      ProdColumnsOrder(init);
      var m := AsProdColumn(columns[|columns| - 1]);
      if m.Some? {
        assert Headers(ProdColumns(init) + [m.value]) == Headers(ProdColumns(init)) + [m.value.col];
      }
    }
  }

  lemma {:induction false} ProdColumnsEmpty(columns: seq<string>)
    ensures ProdColumns(columns) == [] <==> forall c :: c in columns ==> AsProdColumn(c).None?
  {
    if columns != [] {
      var init := columns[..|columns| - 1];
      ProdColumnsEmpty(init);
      assert forall c :: c in columns ==> c in init || c == columns[|columns| - 1];
    }
  }

  /** The columns of the reshaped, long table. */
  const LongColumns: seq<string> := ["commodity", "country", "year", "value", "unit", "statistic"]

  /** The long row the `i`-th input row contributes for one production column,
      with the year stored as the integer it was parsed to. */
  function LongRow(df: Frame, commodity: string, country: string, unit: Option<string>,
                   p: ProdColumn, i: nat): (row: Row)
    requires i < |df.rows|
    ensures |row| == |LongColumns|
    ensures row[0] == Get(df.columns, df.rows[i], commodity)
    ensures row[1] == Get(df.columns, df.rows[i], country)
    ensures row[2] == Text(NatText(p.year)) && row[5] == Text(p.statistic)
    ensures row[3] == Get(df.columns, df.rows[i], p.col)
    ensures row[4] == if unit.Some? then Get(df.columns, df.rows[i], unit.value) else Null
  {
    var r := df.rows[i];
    [Get(df.columns, r, commodity), Get(df.columns, r, country), Text(NatText(p.year)),
     Get(df.columns, r, p.col), if unit.Some? then Get(df.columns, r, unit.value) else Null,
     Text(p.statistic)]
  }

  /** The block one production column contributes: one long row per input row. */
  function Block(df: Frame, commodity: string, country: string, unit: Option<string>,
                 p: ProdColumn): (b: seq<Row>)
    ensures |b| == |df.rows|
  {
    seq(|df.rows|, i requires 0 <= i < |df.rows| => LongRow(df, commodity, country, unit, p, i))
  }

  /** `pd.concat(records)`: the blocks one after another, in column order. */
  function LongRows(df: Frame, commodity: string, country: string, unit: Option<string>,
                    ps: seq<ProdColumn>): seq<Row>
  {
    if ps == [] then []
    else LongRows(df, commodity, country, unit, ps[..|ps| - 1])
         + Block(df, commodity, country, unit, ps[|ps| - 1])
  }

  predicate Truthy(c: Option<string>) { c.Some? && c.value != "" }

  /** The unit column the reshape copies, if any. */
  function UnitColumn(columns: seq<string>): Option<string> {
    var unit := FindColumn(columns, ["unit"]);
    if Truthy(unit) then unit else None
  }

  /** The reshape applies: both key columns exist and some header is a production column. */
  predicate Reshapes(df: Frame) {
    Truthy(FindColumn(df.columns, ["commodity"])) && Truthy(FindColumn(df.columns, ["country"]))
    && ProdColumns(df.columns) != []
  }

  /** What `_reshape_world_production` returns. */
  function Reshaped(df: Frame): Frame {
    if !Reshapes(df) then df
    else Frame(LongColumns, LongRows(df, FindColumn(df.columns, ["commodity"]).value,
                                     FindColumn(df.columns, ["country"]).value,
                                     UnitColumn(df.columns), ProdColumns(df.columns)))
  }

  /** The `prod_cols` loop. */
  method CollectProdColumns(columns: seq<string>) returns (prodCols: seq<ProdColumn>)
    ensures prodCols == ProdColumns(columns)
  {
    prodCols := [];
    for i := 0 to |columns|
      invariant prodCols == ProdColumns(columns[..i])
    {
      assert columns[..i + 1][..i] == columns[..i];
      var m := AsProdColumn(columns[i]);
      if m.Some? {
        prodCols := prodCols + [m.value];
      }
    }
    assert columns[..|columns|] == columns;
  }

  /** `_reshape_world_production`, building `prod_cols` and `records` in loops. */
  method ReshapeWorldProduction(df: Frame) returns (out: Frame)
    ensures out == Reshaped(df)
  {
    var commodity := FindColumn(df.columns, ["commodity"]);
    var country := FindColumn(df.columns, ["country"]);
    if !Truthy(commodity) || !Truthy(country) {
      return df;
    }
    var prodCols := CollectProdColumns(df.columns);
    if prodCols == [] {
      return df;
    }
    var unitCol := UnitColumn(df.columns);
    var records: seq<Row> := [];
    for j := 0 to |prodCols|
      invariant records == LongRows(df, commodity.value, country.value, unitCol, prodCols[..j])
    {
      assert prodCols[..j + 1][..j] == prodCols[..j];
      records := records + Block(df, commodity.value, country.value, unitCol, prodCols[j]);
    }
    assert prodCols[..|prodCols|] == prodCols;
    out := Frame(LongColumns, records);
  }

  lemma {:induction false} LongRowsSize(df: Frame, commodity: string, country: string,
                                        unit: Option<string>, ps: seq<ProdColumn>)
    ensures |LongRows(df, commodity, country, unit, ps)| == |ps| * |df.rows|
  {
    if ps != [] {
      LongRowsSize(df, commodity, country, unit, ps[..|ps| - 1]);
    }
  }

  lemma MulMono(a: nat, b: nat, n: nat)
    requires a <= b
    ensures a * n <= b * n
  {
  }

  lemma {:induction false} LongRowsAt(df: Frame, commodity: string, country: string,
                                      unit: Option<string>, ps: seq<ProdColumn>, k: nat, i: nat)
    requires k < |ps| && i < |df.rows|
    ensures k * |df.rows| + i < |LongRows(df, commodity, country, unit, ps)|
    ensures LongRows(df, commodity, country, unit, ps)[k * |df.rows| + i]
            == LongRow(df, commodity, country, unit, ps[k], i)
  {
    var n := |df.rows|;
    var init := ps[..|ps| - 1];
    var front := LongRows(df, commodity, country, unit, init);
    var block := Block(df, commodity, country, unit, ps[|ps| - 1]);
    assert LongRows(df, commodity, country, unit, ps) == front + block;
    LongRowsSize(df, commodity, country, unit, init);
    assert |front| == |init| * n;
    if k < |ps| - 1 {
      LongRowsAt(df, commodity, country, unit, init, k, i);
      assert init[k] == ps[k];
    } else {
      assert k == |init|;
      assert (front + block)[k * n + i] == block[i];
    }
  }

  /** When the key columns are present and some header is a production column,
      the reshape yields one long row per (production column, input row) pair,
      carrying the input row's commodity, country and unit cells and that column's
      year, value and statistic. */
  lemma ReshapedRows(df: Frame, k: nat, i: nat)
    requires Reshapes(df)
    requires k < |ProdColumns(df.columns)| && i < |df.rows|
    ensures var ps := ProdColumns(df.columns);
            var unit := UnitColumn(df.columns);
            Reshaped(df).columns == LongColumns
            && |Reshaped(df).rows| == |ps| * |df.rows|
            && k * |df.rows| + i < |Reshaped(df).rows|
            && |Reshaped(df).rows[k * |df.rows| + i]| == 6
            && Reshaped(df).rows[k * |df.rows| + i][0] == Get(df.columns, df.rows[i], FindColumn(df.columns, ["commodity"]).value)
            && Reshaped(df).rows[k * |df.rows| + i][1] == Get(df.columns, df.rows[i], FindColumn(df.columns, ["country"]).value)
            && Reshaped(df).rows[k * |df.rows| + i][4] == (if unit.Some? then Get(df.columns, df.rows[i], unit.value) else Null)
            && Reshaped(df).rows[k * |df.rows| + i][2] == Text(NatText(ps[k].year))
            && Reshaped(df).rows[k * |df.rows| + i][3] == Get(df.columns, df.rows[i], ps[k].col)
            && Reshaped(df).rows[k * |df.rows| + i][5] == Text(ps[k].statistic)
            && ps[k].col in df.columns && AsProdColumn(ps[k].col) == Some(ps[k])
  {
    var ps := ProdColumns(df.columns);
    var c := FindColumn(df.columns, ["commodity"]).value;
    var t := FindColumn(df.columns, ["country"]).value;
    assert Reshaped(df) == Frame(LongColumns, LongRows(df, c, t, UnitColumn(df.columns), ps));
    LongRowsSize(df, c, t, UnitColumn(df.columns), ps);
    LongRowsAt(df, c, t, UnitColumn(df.columns), ps, k, i);
    assert ps[k] in ps;
  }

  /** Otherwise the table comes back unchanged. */
  lemma ReshapedUnchanged(df: Frame)
    requires FindColumn(df.columns, ["commodity"]).None? || FindColumn(df.columns, ["country"]).None?
             || forall c :: c in df.columns ==> AsProdColumn(c).None?
    ensures Reshaped(df) == df
  {
    ProdColumnsEmpty(df.columns);
  }

  /** The statistic of a reshaped row is "Production (est)" exactly when its
      header, underscores collapsed, starts with "prod_est". */
  lemma ProdStatistic(col: string)
    requires AsProdColumn(col).Some?
    ensures AsProdColumn(col).value.statistic == "Production (est)"
            <==> StartsWith(CollapseUnderscores(col), "prod_est")
    ensures AsProdColumn(col).value.statistic != "Production (est)" ==>
            AsProdColumn(col).value.statistic == "Production"
  {
    MatchProdEstimate(CollapseUnderscores(col));
  }

  /** A four-digit reshaped year reads back as itself through `_parse_year`. */
  lemma ReshapedYearReadsBack(y: nat)
    requires 1000 <= y <= 9999
    ensures ParseYear(NatText(y)) == Some(y)
  {
    var t := NatText(y);
    NatTextLength(y);
    NatTextValue(y);
    assert t[0..4] == t;
    assert FourDigitsAt(t, 0);
  }

  lemma {:induction false} NatTextLength(n: nat)
    ensures n >= 1000 && n <= 9999 ==> |NatText(n)| == 4
    ensures n >= 100 && n <= 999 ==> |NatText(n)| == 3
    ensures n >= 10 && n <= 99 ==> |NatText(n)| == 2
    ensures n <= 9 ==> |NatText(n)| == 1
  {
    if n >= 10 { NatTextLength(n / 10); }
  }

  /** `_load_dataframe` reshapes when some header is "prod_2023" or starts with "prod_". */
  predicate IsWide(columns: seq<string>) {
    "prod_2023" in columns || exists c :: c in columns && StartsWith(c, "prod_")
  }

  /** One file entry of a catalogue item: the string-valued fields it carries. */
  type FileEntry = map<string, string>

  /** `f.get(k1) or f.get(k2) or ...`, with "" standing for a falsy result. */
  function FirstTruthy(f: FileEntry, keys: seq<string>): (r: string)
    ensures r != "" <==> exists k :: k in keys && k in f && f[k] != ""
    ensures r != "" ==> exists i :: 0 <= i < |keys| && keys[i] in f && f[keys[i]] == r
                          && forall j :: 0 <= j < i ==> !(keys[j] in f && f[keys[j]] != "")
  {
    if keys == [] then ""
    else if keys[0] in f && f[keys[0]] != "" then f[keys[0]]
    else
      var r := FirstTruthy(f, keys[1..]);
      assert forall k :: k in keys ==> k == keys[0] || k in keys[1..];
      if r != "" then
        var i :| 0 <= i < |keys[1..]| && keys[1..][i] in f && f[keys[1..][i]] == r
                 && forall j :: 0 <= j < i ==> !(keys[1..][j] in f && f[keys[1..][j]] != "");
        assert keys[i + 1] == keys[1..][i];
        r
      else r
  }

  /** A downloadable file: its name and its URL. */
  datatype DataFile = DataFile(name: string, url: string)

  function NameOf(f: FileEntry): string { FirstTruthy(f, ["name", "fileName", "title"]) }

  function UrlOf(f: FileEntry): string { FirstTruthy(f, ["downloadUri", "url", "downloadUrl"]) }

  /** `candidates`: the entries with both a name and a URL, in order. */
  function Candidates(files: seq<FileEntry>): (r: seq<DataFile>)
    ensures forall d :: d in r ==> d.name != "" && d.url != ""
    ensures forall f :: f in files && NameOf(f) != "" && UrlOf(f) != "" ==> DataFile(NameOf(f), UrlOf(f)) in r
  {
    if files == [] then []
    else
      var f := files[|files| - 1];
      var init := Candidates(files[..|files| - 1]);
      assert forall g :: g in files ==> g in files[..|files| - 1] || g == f;
      if NameOf(f) != "" && UrlOf(f) != "" then init + [DataFile(NameOf(f), UrlOf(f))] else init
  }

  predicate IsCsv(d: DataFile) { EndsWith(d.name, ".csv") }

  predicate IsPreferred(d: DataFile) { Contains(d.name, "Commodities_Data") && IsCsv(d) }

  /** `s[i]` is the first element of `s` that satisfies `p`. */
  predicate IsFirst(s: seq<DataFile>, i: int, p: DataFile -> bool) {
    0 <= i < |s| && p(s[i]) && forall k :: 0 <= k < i ==> !p(s[k])
  }

  /** The loop that builds `candidates`, entry by entry. */
  method CollectCandidates(files: seq<FileEntry>) returns (cs: seq<DataFile>)
    ensures cs == Candidates(files)
  {
    cs := [];
    for i := 0 to |files|
      invariant cs == Candidates(files[..i])
    {
      assert files[..i + 1][..i] == files[..i];
      var name := FirstTruthy(files[i], ["name", "fileName", "title"]);
      var url := FirstTruthy(files[i], ["downloadUri", "url", "downloadUrl"]);
      if name != "" && url != "" {
        cs := cs + [DataFile(name, url)];
      }
    }
    assert files[..|files|] == files;
  }

  /** A scan for the first candidate satisfying `p`; none when no candidate does. */
  method FirstWhere(cs: seq<DataFile>, p: DataFile -> bool) returns (found: Option<nat>)
    ensures found.Some? ==> IsFirst(cs, found.value, p)
    ensures found.None? <==> forall d :: d in cs ==> !p(d)
  {
    for j := 0 to |cs|
      invariant forall k :: 0 <= k < j ==> !p(cs[k])
    {
      if p(cs[j]) {
        return Some(j);
      }
    }
    return None;
  }

  /** `_pick_data_file`: the first preferred CSV, else the first CSV, else an error. */
  method PickDataFile(files: seq<FileEntry>) returns (r: Result<DataFile, string>)
    ensures var cs := Candidates(files);
            r.Ok? ==> (exists i :: IsFirst(cs, i, IsPreferred) && r.value == cs[i])
                      || ((forall d :: d in cs ==> !IsPreferred(d))
                          && exists i :: IsFirst(cs, i, IsCsv) && r.value == cs[i])
    ensures r.Err? <==> forall d :: d in Candidates(files) ==> !IsCsv(d)
  {
    var cs := CollectCandidates(files);
    var preferred := FirstWhere(cs, IsPreferred);
    if preferred.Some? {
      var d := cs[preferred.value];
      assert d in cs && IsCsv(d);
      return Ok(d);
    }
    var csv := FirstWhere(cs, IsCsv);
    if csv.Some? {
      var d := cs[csv.value];
      assert d in cs && IsCsv(d);
      return Ok(d);
    }
    return Err("No CSV files found in ScienceBase item. Check USGS_MCS_ITEM_ID or update file selection logic.");
  }
}
