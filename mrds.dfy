/** The Mineral Resources Data System client: its own header normalisation and
    column inference, the country normalisation and alias table, and the
    search over the cached table (country filter with alias fallback,
    commodity filter, coordinate check, result limit, commodity split). */
module Mrds {
  import opened Strings
  import opened Seqs
  import opened Tables
  import opened UsgsParse

  /** What one character of a stripped header becomes before the `__` pass. */
  function SeparatorChar(c: char): (r: char)
    ensures r != ' ' && r != '-' && r != '/' && !IsUpper(r)
  {
    if c == ' ' || c == '-' || c == '/' then '_' else LowerChar(c)
  }

  /** `_normalize` up to the `__` pass: strip, lowercase, turn space, `-` and `/`
      into `_`. */
  function Separated(col: string): (r: string)
    ensures ' ' !in r && '-' !in r && '/' !in r
    ensures NoUpper(r)
    ensures |r| == |Strip(col)|
    ensures forall i :: 0 <= i < |r| ==> r[i] == SeparatorChar(Strip(col)[i])
  {
    var t := Strip(col);
    var spaced := ReplaceChar(Lower(t), ' ', '_');
    var dashed := ReplaceChar(spaced, '-', '_');
    var r := ReplaceChar(dashed, '/', '_');
    assert forall i :: 0 <= i < |r| ==> r[i] == SeparatorChar(t[i]) by {
      forall i | 0 <= i < |r| ensures r[i] == SeparatorChar(t[i]) {
        SeparatorSteps(t[i]);
      }
    }
    r
  }

  /** The three replacements after lowercasing, on one character. */
  lemma SeparatorSteps(c: char)
    ensures var l := LowerChar(c);
            var a := if l == ' ' then '_' else l;
            var b := if a == '-' then '_' else a;
            (if b == '/' then '_' else b) == SeparatorChar(c)
  {
  }

  /** `_normalize`: the separated name after one left-to-right pass replacing `__`
      with `_`. */
  function Normalize(col: string): (r: string)
    ensures ' ' !in r && '-' !in r && '/' !in r
    ensures NoUpper(r)
    ensures Filter(r, NonUnderscore) == Filter(Separated(col), NonUnderscore)
  {
    CollapseKeeps(Separated(col));
    ReplaceAllKeeps(Separated(col), "__", "_", NonUnderscore);
    ReplaceAll(Separated(col), "__", "_")
  }

  /** The `__` pass brings in only underscores. */
  lemma CollapseKeeps(s: string)
    requires ' ' !in s && '-' !in s && '/' !in s && NoUpper(s)
    ensures var r := ReplaceAll(s, "__", "_");
            ' ' !in r && '-' !in r && '/' !in r && NoUpper(r)
  {
    var r := ReplaceAll(s, "__", "_");
    assert forall c :: c in "_" ==> c == '_';
    forall i | 0 <= i < |r| ensures r[i] in s || r[i] == '_' {
      assert r[i] in r;
    }
  }

  lemma PlainExample()
    ensures Lower(Strip("a - b")) == "a - b"
  {
    var s := "a - b";
    assert Stripped(s) by { assert s[0] == 'a' && s[4] == 'b'; }
    StripNoop(s);
    assert NoUpper(s) by {
      forall i | 0 <= i < |s| ensures !IsUpper(s[i]) {
        assert s[i] in "a -b";
      }
    }
    LowerNoop(s);
  }

  lemma SeparatedExample()
    ensures Separated("a - b") == "a___b"
  {
    var s := "a - b";
    PlainExample();
    var spaced := ReplaceChar(s, ' ', '_');
    assert spaced == "a_-_b";
    var dashed := ReplaceChar(spaced, '-', '_');
    assert dashed == "a___b";
    assert ReplaceChar(dashed, '/', '_') == "a___b";
  }

  lemma CollapseExample()
    ensures ReplaceAll("a___b", "__", "_") == "a__b"
  {
    assert ReplaceAll("b", "__", "_") == "b";
    assert ReplaceAll("_b", "__", "_") == "_b" by {
      assert "_b"[..2] == "_b" && "_b"[1] == 'b';
      assert "_b"[1..] == "b";
    }
    assert ReplaceAll("___b", "__", "_") == "__b" by {
      assert "___b"[..2] == "__" && "___b"[2..] == "_b";
    }
    assert "a___b"[..2] != "__" && "a___b"[1..] == "___b";
  }

  /** The `__` pass is single: three separators in a row leave a double
      underscore behind. */
  lemma NormalizeSinglePass()
    ensures Normalize("a - b") == "a__b"
  {
    SeparatedExample();
    CollapseExample();
  }

  /** `MRDSColumns`. */
  datatype MrdsColumns = MrdsColumns(latitude: string, longitude: string, country: Option<string>,
                                     siteName: Option<string>, commodityFields: seq<string>)

  /** Why `_infer_columns` raises. */
  datatype InferError = MissingCoordinates | MissingCommodityFields

  function Latitude(columns: seq<string>): Option<string> {
    OrElse(FindColumn(columns, ["latitude"]), FindColumn(columns, ["lat"]))
  }

  function Longitude(columns: seq<string>): Option<string> {
    OrElse(OrElse(FindColumn(columns, ["longitude"]), FindColumn(columns, ["lon"])), FindColumn(columns, ["long"]))
  }

  predicate Commod(c: string) { Contains(c, "commod") }

  predicate MineralOrResource(c: string) { Contains(c, "mineral") || Contains(c, "resource") }

  /** Every column whose (case-sensitive) name contains "commod", in column order;
      failing that, every column containing "mineral" or "resource", in column order. */
  function CommodityFields(columns: seq<string>): (r: seq<string>)
    ensures (exists c :: c in columns && Commod(c)) ==>
              (forall c :: c in r <==> c in columns && Commod(c)) && r == Filter(columns, Commod)
    ensures (forall c :: c in columns ==> !Commod(c)) ==>
              (forall c :: c in r <==> c in columns && MineralOrResource(c)) && r == Filter(columns, MineralOrResource)
  {
    var direct := Filter(columns, Commod);
    assert direct != [] ==> direct[0] in direct;
    if direct != [] then direct
    else Filter(columns, MineralOrResource)
  }

  /** `_infer_columns`. */
  function InferColumns(columns: seq<string>): (r: Result<MrdsColumns, InferError>)
    ensures r == Err(MissingCoordinates) <==> !Truthy(Latitude(columns)) || !Truthy(Longitude(columns))
    ensures r == Err(MissingCommodityFields) <==>
              Truthy(Latitude(columns)) && Truthy(Longitude(columns)) && CommodityFields(columns) == []
    ensures r.Ok? ==> r.value.latitude == Latitude(columns).value
                      && r.value.longitude == Longitude(columns).value
                      && r.value.country == FindColumn(columns, ["country"])
                      && r.value.siteName == OrElse(FindColumn(columns, ["site_name"]), FindColumn(columns, ["name"]))
                      && r.value.commodityFields == CommodityFields(columns) != []
  {
    var lat := Latitude(columns);
    var lon := Longitude(columns);
    if !Truthy(lat) || !Truthy(lon) then Err(MissingCoordinates)
    else
      var fields := CommodityFields(columns);
      if fields == [] then Err(MissingCommodityFields)
      else Ok(MrdsColumns(lat.value, lon.value, FindColumn(columns, ["country"]),
                          OrElse(FindColumn(columns, ["site_name"]), FindColumn(columns, ["name"])), fields))
  }

  predicate Truthy(c: Option<string>) { c.Some? && c.value != "" }

  /** A name holding "long" holds "lon". */
  lemma LongHasLon(col: string)
    requires HasAll(col, ["long"])
    ensures HasAll(col, ["lon"])
  {
    assert Contains(Lower(col), "long");
    ContainsInfix(Lower(col), "long", 0, 3);
    assert "long"[0..3] == "lon";
  }

  /** Every name containing "long" contains "lon", so the last longitude fallback
      never decides anything: the lookup is the same without it. */
  lemma LongFallbackUnused(columns: seq<string>)
    ensures Longitude(columns) == OrElse(FindColumn(columns, ["longitude"]), FindColumn(columns, ["lon"]))
  {
    FindColumnSpec(columns, ["lon"]);
    FindColumnSpec(columns, ["long"]);
    forall i | 0 <= i < |columns| && HasAll(columns[i], ["long"])
      ensures HasAll(columns[i], ["lon"])
    {
      LongHasLon(columns[i]);
    }
    if FindColumn(columns, ["lon"]).Some? {
      FoundColumnNonEmpty(columns, "lon");
    }
  }

  /** `_normalize_country`: drop every comma, one pass turning double spaces into
      single ones, then strip. A name already free of commas, outer whitespace and
      double spaces comes back as it is. */
  function NormalizeCountry(name: string): (r: string)
    ensures ',' !in r && Stripped(r)
    ensures Filter(r, NameChar) == Filter(name, NameChar)
    ensures ',' !in name && Stripped(name) && NoDoubleSpace(name) ==> r == name
  {
    NormalizedClean(name);
    NormalizedKeeps(name);
    if ',' !in name && Stripped(name) && NoDoubleSpace(name) then
      NormalizedAsIs(name);
      Strip(ReplaceAll(Remove(name, ","), "  ", " "))
    else Strip(ReplaceAll(Remove(name, ","), "  ", " "))
  }

  /** No comma survives, and the ends are stripped. */
  lemma NormalizedClean(name: string)
    ensures var r := Strip(ReplaceAll(Remove(name, ","), "  ", " "));
            ',' !in r && Stripped(r)
  {
    RemoveDrops(name, ',');
    StripWithin(ReplaceAll(Remove(name, ","), "  ", " "));
  }

  /** Every character other than whitespace and commas survives, in order. */
  lemma NormalizedKeeps(name: string)
    ensures Filter(Strip(ReplaceAll(Remove(name, ","), "  ", " ")), NameChar) == Filter(name, NameChar)
  {
    var noCommas := Remove(name, ",");
    RemoveKeeps(name, ",", NameChar);
    ReplaceAllKeeps(noCommas, "  ", " ", NameChar);
    StripKeeps(ReplaceAll(noCommas, "  ", " "), NameChar);
  }



  /** No two spaces in a row. */
  predicate NoDoubleSpace(s: string) {
    forall i :: 0 <= i < |s| - 1 ==> !(s[i] == ' ' && s[i + 1] == ' ')
  }

  /** `n` spaces. */
  function Spaces(n: nat): (r: string)
    ensures |r| == n && forall i :: 0 <= i < n ==> r[i] == ' '
  {
    seq(n, i => ' ')
  }

  /** The `replace("  ", " ")` pass leaves a text without double spaces alone. */
  lemma {:induction false} SpacePassNoop(s: string)
    requires NoDoubleSpace(s)
    ensures ReplaceAll(s, "  ", " ") == s
    decreases |s|
  {
    if |s| >= 2 {
      assert s[..2] != "  " by { assert !(s[0] == ' ' && s[1] == ' '); }
      SpacePassNoop(s[1..]);
      assert s == [s[0]] + s[1..];
    }
  }

  /** A comma-free, stripped name without double spaces goes through every step unchanged. */
  lemma NormalizedAsIs(name: string)
    requires ',' !in name && Stripped(name) && NoDoubleSpace(name)
    ensures Strip(ReplaceAll(Remove(name, ","), "  ", " ")) == name
  {
    FirstCharAbsent(name, ",");
    RemoveAbsent(name, ",");
    SpacePassNoop(name);
    StripNoop(name);
  }

  /** The `replace("  ", " ")` pass turns a run of `n` spaces into `(n + 1) / 2`:
      it halves a run, rounding up, rather than collapsing it to one space. */
  lemma {:induction false} SpacePassRun(n: nat)
    ensures ReplaceAll(Spaces(n), "  ", " ") == Spaces((n + 1) / 2)
    decreases n
  {
    if n >= 2 {
      assert Spaces(n)[..2] == "  ";
      assert Spaces(n)[2..] == Spaces(n - 2);
      SpacePassRun(n - 2);
      assert " " + Spaces((n - 1) / 2) == Spaces((n + 1) / 2);
    }
  }

  /** The pass never reaches across a character other than a space, so a text is
      rewritten run by run. */
  lemma SpacePassSplit(a: string, c: char, b: string)
    requires c != ' '
    ensures ReplaceAll(a + [c] + b, "  ", " ") == ReplaceAll(a, "  ", " ") + [c] + ReplaceAll(b, "  ", " ")
  {
    SpacePassHalves(a + [c] + b);
    SpacePassHalves(a);
    SpacePassHalves(b);
    HalvesSplit(a, c, b);
  }

  /** The pass, scanning left to right: a leading double space becomes one space,
      any other leading character is kept. */
  function Halves(s: string): string
    decreases |s|
  {
    if |s| < 2 then s
    else if s[0] == ' ' && s[1] == ' ' then " " + Halves(s[2..])
    else [s[0]] + Halves(s[1..])
  }

  lemma {:induction false} SpacePassHalves(s: string)
    ensures ReplaceAll(s, "  ", " ") == Halves(s)
    decreases |s|
  {
    if |s| >= 2 {
      SpacePassHead(s);
      if s[0] == ' ' && s[1] == ' ' {
        SpacePassHalves(s[2..]);
      } else {
        SpacePassHalves(s[1..]);
      }
    }
  }

  lemma {:induction false} HalvesSplit(a: string, c: char, b: string)
    requires c != ' '
    ensures Halves(a + [c] + b) == Halves(a) + [c] + Halves(b)
    decreases |a|
  {
    var s := a + [c] + b;
    if a == [] {
      assert s[0] == c && s[1..] == b;
    } else {
      var k := if |a| >= 2 && a[0] == ' ' && a[1] == ' ' then 2 else 1;
      assert s[0] == a[0] && s[k..] == a[k..] + [c] + b;
      assert |a| == 1 ==> s[1] == c;
      assert |a| >= 2 ==> s[1] == a[1];
      HalvesSplit(a[k..], c, b);
    }
  }

  lemma SpacePassHead(s: string)
    requires |s| >= 1
    ensures ReplaceAll(s, "  ", " ")
            == if |s| >= 2 && s[0] == ' ' && s[1] == ' ' then " " + ReplaceAll(s[2..], "  ", " ")
               else [s[0]] + ReplaceAll(s[1..], "  ", " ")
  {
    if |s| >= 2 {
      assert s[..2] == "  " <==> s[0] == ' ' && s[1] == ' ';
    }
  }




  /** The characters of a country name the normalisation leaves in place: all but
      whitespace and commas. */
  predicate NameChar(c: char) { !IsSpace(c) && c != ',' }

  /** The alias table of `_country_aliases`, keyed by lowercase name. */
  const Aliases: map<string, seq<string>> := map[
    "congo democratic republic" := ["Congo (Kinshasa)", "Democratic Republic of the Congo"],
    "congo republic" := ["Congo (Brazzaville)", "Republic of the Congo"],
    "russia" := ["Russian Federation"],
    "bolivia" := ["Bolivia (Plurinational State of)"],
    "iran" := ["Iran (Islamic Republic of)"],
    "tanzania" := ["Tanzania, United Republic of"],
    "south korea" := ["Korea, Republic of", "Republic of Korea"],
    "north korea" := ["Korea, Democratic People's Republic of"],
    "vietnam" := ["Viet Nam"],
    "laos" := ["Lao People's Democratic Republic"]
  ]

  /** `_country_aliases`: the aliases of the lowercased name, none for an unknown one. */
  function CountryAliases(name: string): (r: seq<string>)
    ensures Lower(name) !in Aliases ==> r == []
    ensures Lower(name) in Aliases ==> r == Aliases[Lower(name)] && r != []
  {
    if Lower(name) in Aliases then Aliases[Lower(name)] else []
  }

  /** The lookup ignores case. */
  lemma AliasesIgnoreCase(name: string)
    ensures CountryAliases(Lower(name)) == CountryAliases(name)
  {
    LowerIdempotent(name);
  }

  /** The row's country cell contains `name`, ignoring case. */
  predicate MatchesCountry(columns: seq<string>, row: Row, col: string, name: string) {
    ContainsIgnoreCase(CellText(Get(columns, row, col)), name)
  }

  /** The rows whose country cell contains `name`, ignoring case. */
  function CountryMatches(df: Frame, col: string, name: string): (r: seq<Row>)
    ensures forall row :: row in r <==> row in df.rows && MatchesCountry(df.columns, row, col, name)
  {
    Filter(df.rows, Mentions(df.columns, col, name))
  }

  /** The test `str.contains(name, case=False)` applies to a row's country cell. */
  function Mentions(columns: seq<string>, col: string, name: string): Row -> bool {
    row => MatchesCountry(columns, row, col, name)
  }

  /** The rows the alias loop ends with: those of the first alias that matches any
      row, or none when no alias does. */
  function FirstAliasMatch(df: Frame, col: string, aliases: seq<string>): seq<Row> {
    if aliases == [] then []
    else if CountryMatches(df, col, aliases[0]) != [] then CountryMatches(df, col, aliases[0])
    else FirstAliasMatch(df, col, aliases[1..])
  }

  lemma {:induction false} FirstAliasMatchSpec(df: Frame, col: string, aliases: seq<string>)
    ensures FirstAliasMatch(df, col, aliases) == [] <==>
              forall k :: 0 <= k < |aliases| ==> CountryMatches(df, col, aliases[k]) == []
    ensures FirstAliasMatch(df, col, aliases) != [] ==>
              exists k :: 0 <= k < |aliases| && FirstAliasMatch(df, col, aliases) == CountryMatches(df, col, aliases[k])
                          && forall j :: 0 <= j < k ==> CountryMatches(df, col, aliases[j]) == []
  {
    if aliases != [] && CountryMatches(df, col, aliases[0]) == [] {
      var rest := aliases[1..];
      FirstAliasMatchSpec(df, col, rest);
      assert forall k :: 1 <= k < |aliases| ==> aliases[k] == rest[k - 1];
      if FirstAliasMatch(df, col, rest) != [] {
        var k :| 0 <= k < |rest| && FirstAliasMatch(df, col, rest) == CountryMatches(df, col, rest[k])
                 && forall j :: 0 <= j < k ==> CountryMatches(df, col, rest[j]) == [];
        assert aliases[k + 1] == rest[k];
      }
    }
  }

  /** The rows after the country step of `search`. */
  function CountryRows(df: Frame, cols: MrdsColumns, country: string): seq<Row> {
    if country == "" || !Truthy(cols.country) then df.rows
    else
      var normalized := NormalizeCountry(country);
      var direct := CountryMatches(df, cols.country.value, normalized);
      if direct != [] then direct
      else FirstAliasMatch(df, cols.country.value, CountryAliases(normalized))
  }

  /** The commodity fields of a row joined with " ; " and lowercased; a missing
      cell contributes "nan". */
  function Blob(columns: seq<string>, fields: seq<string>, row: Row): string {
    Lower(Join(seq(|fields|, i requires 0 <= i < |fields| => CellText(Get(columns, row, fields[i]))), " ; "))
  }

  /** The rows after the commodity step: the blob contains the lowercased term. */
  function CommodityRows(columns: seq<string>, cols: MrdsColumns, commodity: string, rows: seq<Row>): (r: seq<Row>)
    ensures forall row :: row in r <==> row in rows && HasCommodity(columns, cols, commodity, row)
  {
    if commodity == "" then rows
    else Filter(rows, HoldsTerm(columns, cols, commodity))
  }

  /** The test the commodity step applies to a row's blob. */
  function HoldsTerm(columns: seq<string>, cols: MrdsColumns, commodity: string): Row -> bool {
    row => Contains(Blob(columns, cols.commodityFields, row), Lower(commodity))
  }

  /** The row passes the commodity step: no term, or the blob holds the term. */
  predicate HasCommodity(columns: seq<string>, cols: MrdsColumns, commodity: string, row: Row) {
    commodity == "" || Contains(Blob(columns, cols.commodityFields, row), Lower(commodity))
  }

  /** `pd.to_numeric(.., errors="coerce")` on a coordinate cell. */
  function Coordinate(c: Cell): Option<real> {
    match c
    case Null => None
    case Text(s) => ParseNumber(s)
  }

  /** A row whose two coordinates are numbers, with those numbers. */
  datatype Hit = Hit(row: Row, lat: real, lng: real)

  function HitOf(columns: seq<string>, cols: MrdsColumns, row: Row): Option<Hit> {
    match (Coordinate(Get(columns, row, cols.latitude)), Coordinate(Get(columns, row, cols.longitude)))
    case (Some(a), Some(b)) => Some(Hit(row, a, b))
    case _ => None
  }

  /** The coordinate step: rows whose latitude or longitude is missing or not a
      number are dropped. */
  function Located(columns: seq<string>, cols: MrdsColumns, rows: seq<Row>): seq<Hit> {
    if rows == [] then []
    else
      var init := Located(columns, cols, rows[..|rows| - 1]);
      match HitOf(columns, cols, rows[|rows| - 1])
      case Some(h) => init + [h]
      case None => init
  }

  lemma {:induction false} LocatedSpec(columns: seq<string>, cols: MrdsColumns, rows: seq<Row>)
    ensures forall h :: h in Located(columns, cols, rows) ==>
              h.row in rows && HitOf(columns, cols, h.row) == Some(h)
    ensures forall row :: row in rows && HitOf(columns, cols, row).Some? ==>
              HitOf(columns, cols, row).value in Located(columns, cols, rows)
  {
    if rows != [] {
      var init := rows[..|rows| - 1];
      LocatedSpec(columns, cols, init);
      assert forall row :: row in rows <==> row in init || row == rows[|rows| - 1];
    }
  }

  /** One search result. */
  datatype Site = Site(name: string, lat: real, lng: real, country: Option<string>,
                       commodities: seq<string>, source: string)

  /** Every part, stripped. */
  function StripAll(parts: seq<string>): (r: seq<string>)
    ensures |r| == |parts| && forall i :: 0 <= i < |parts| ==> r[i] == Strip(parts[i])
  {
    seq(|parts|, i requires 0 <= i < |parts| => Strip(parts[i]))
  }

  predicate NonEmpty(p: string) { p != "" }

  /** The stripped, non-empty pieces, in order. */
  function Pieces(parts: seq<string>): (r: seq<string>)
    ensures forall p :: p in r ==> p != "" && Stripped(p)
    ensures forall p :: p in r ==> exists q :: q in parts && p == Strip(q)
    ensures forall q :: q in parts && Strip(q) != "" ==> Strip(q) in r
  {
    var stripped := StripAll(parts);
    var r := Filter(stripped, NonEmpty);
    assert forall p :: p in r ==> exists i :: 0 <= i < |parts| && p == Strip(parts[i]);
    forall q | q in parts ensures Strip(q) in stripped {
      var i :| 0 <= i < |parts| && parts[i] == q;
      assert stripped[i] == Strip(q);
    }
    r
  }

  /** Pieces keeps the parts' order and multiplicity: the pieces of one part are
      its stripped text when that is non-empty, and the pieces of two runs of
      parts are the two runs' pieces, in that order. */
  lemma PiecesOrder(a: seq<string>, b: seq<string>, q: string)
    ensures Pieces([q]) == if Strip(q) != "" then [Strip(q)] else []
    ensures Pieces(a + b) == Pieces(a) + Pieces(b)
  {
    assert StripAll([q]) == [Strip(q)];
    FilterSingle(Strip(q), NonEmpty);
    assert StripAll(a + b) == StripAll(a) + StripAll(b);
    FilterAppend(StripAll(a), StripAll(b), NonEmpty);
  }

  /** The commodities of one result: the blob with commas turned into semicolons,
      split on semicolons, stripped, empties dropped, at most ten kept. */
  function CommodityList(blob: string): seq<string> {
    Take(Pieces(Split(ReplaceChar(blob, ',', ';'), ';')), 10)
  }

  /** The listed commodities are the first ten (or all, when fewer) of the blob's
      pieces between commas and semicolons, stripped, with the empty ones dropped;
      each is non-empty and stripped, with no separator left. */
  lemma CommodityListSpec(blob: string)
    ensures var r := CommodityList(blob);
            var pieces := Filter(StripAll(Split(ReplaceChar(blob, ',', ';'), ';')), NonEmpty);
            |r| == (if |pieces| < 10 then |pieces| else 10) && r == pieces[..|r|]
            && forall p :: p in r ==> p != "" && Stripped(p) && ',' !in p && ';' !in p
  {
    var parts := Split(ReplaceChar(blob, ',', ';'), ';');
    var pieces := Pieces(parts);
    ReplaceCharRemoves(blob, ',', ';');
    forall p | p in Take(pieces, 10) ensures p != "" && Stripped(p) && ',' !in p && ';' !in p {
      assert p in pieces;
      var q :| q in parts && p == Strip(q);
      StripWithin(q);
      var k :| 0 <= k < |parts| && parts[k] == q;
      assert forall c :: c in q ==> c in Join(parts, [';']) || c == ';' by {
        JoinHas(parts, [';'], k);
      }
    }
  }

  /** Every character of a joined part is a character of the joined string. */
  lemma {:induction false} JoinHas(parts: seq<string>, sep: string, k: int)
    requires 0 <= k < |parts|
    ensures forall c :: c in parts[k] ==> c in Join(parts, sep)
    decreases |parts|
  {
    if |parts| > 1 {
      if k > 0 {
        JoinHas(parts[1..], sep, k - 1);
        assert Join(parts, sep) == parts[0] + sep + Join(parts[1..], sep);
      }
    }
  }

  /** One result built from a located row: the site name or "Unknown", the two
      coordinates, the country cell's text when there is a country column, the
      split commodities, and the source tag. */
  function SiteOf(columns: seq<string>, cols: MrdsColumns, h: Hit): (s: Site)
    ensures s.source == "mrds" && s.name != "" && s.lat == h.lat && s.lng == h.lng
  {
    var name :=
      if Truthy(cols.siteName) && Get(columns, h.row, cols.siteName.value).Text?
      then Get(columns, h.row, cols.siteName.value).text else "";
    Site(if name == "" then "Unknown" else name, h.lat, h.lng,
         if Truthy(cols.country) then Some(CellText(Get(columns, h.row, cols.country.value))) else None,
         CommodityList(Blob(columns, cols.commodityFields, h.row)), "mrds")
  }

  /** The row has a site-name column whose cell holds a non-empty text. */
  predicate NamedRow(columns: seq<string>, cols: MrdsColumns, row: Row) {
    Truthy(cols.siteName) && Get(columns, row, cols.siteName.value).Text?
    && Get(columns, row, cols.siteName.value).text != ""
  }

  /** The name is the site-name cell's text when it has a non-empty one and
      "Unknown" otherwise; the country is the country cell's text exactly when
      there is a country column; the commodities are the split blob of the row. */
  lemma SiteSpec(columns: seq<string>, cols: MrdsColumns, h: Hit)
    ensures var s := SiteOf(columns, cols, h);
            (NamedRow(columns, cols, h.row) ==> Text(s.name) == Get(columns, h.row, cols.siteName.value))
            && (!NamedRow(columns, cols, h.row) ==> s.name == "Unknown")
            && (Truthy(cols.country) ==> s.country == Some(CellText(Get(columns, h.row, cols.country.value))))
            && (!Truthy(cols.country) ==> s.country.None?)
            && s.commodities == CommodityList(Blob(columns, cols.commodityFields, h.row))
  {
  }

  /** `results.append(...)` for each located row, in order. */
  function Sites(columns: seq<string>, cols: MrdsColumns, hits: seq<Hit>): (r: seq<Site>)
    ensures |r| == |hits|
    ensures forall i :: 0 <= i < |hits| ==> r[i] == SiteOf(columns, cols, hits[i])
  {
    Map(hits, SiteFor(columns, cols))
  }

  function SiteFor(columns: seq<string>, cols: MrdsColumns): Hit -> Site {
    h => SiteOf(columns, cols, h)
  }

  /** The rows `search` turns into results, before the limit. */
  function Selected(df: Frame, cols: MrdsColumns, commodity: string, country: string): seq<Hit> {
    Located(df.columns, cols, CommodityRows(df.columns, cols, commodity, CountryRows(df, cols, country)))
  }

  /** What `search` returns on a loaded table. */
  function SearchResults(df: Frame, cols: MrdsColumns, commodity: string, country: string, limit: int): seq<Site> {
    Sites(df.columns, cols, Take(Selected(df, cols, commodity, country), limit))
  }

  /** The hits `search` keeps: exactly the rows that survive the country step,
      hold the commodity term and have numeric coordinates; and their rows are
      the table's rows that pass all three steps, in table order and with their
      multiplicity, which is what `head(limit)` takes the front of. */
  lemma SelectedSpec(df: Frame, cols: MrdsColumns, commodity: string, country: string)
    ensures forall h :: h in Selected(df, cols, commodity, country) <==>
              h.row in CountryRows(df, cols, country) && HasCommodity(df.columns, cols, commodity, h.row)
              && HitOf(df.columns, cols, h.row) == Some(h)
    ensures Map(Selected(df, cols, commodity, country), HitRow) == Filter(df.rows, Selection(df, cols, commodity, country))
  {
    LocatedSpec(df.columns, cols, CommodityRows(df.columns, cols, commodity, CountryRows(df, cols, country)));
    SelectedOrder(df, cols, commodity, country);
  }

  function HitRow(h: Hit): Row { h.row }

  /** The coordinate step's test. */
  function Locatable(columns: seq<string>, cols: MrdsColumns): Row -> bool {
    row => HitOf(columns, cols, row).Some?
  }

  /** The country step's test: no country given, no country column, or the row
      holds the name or the alias it is kept for. */
  function CountryKeeps(df: Frame, cols: MrdsColumns, country: string): Row -> bool {
    row => country == "" || !Truthy(cols.country) || CountryHeld(df, cols.country.value, NormalizeCountry(country), row)
  }

  /** A row `search` turns into a result, before the limit. */
  predicate Selects(df: Frame, cols: MrdsColumns, commodity: string, country: string, row: Row) {
    CountryKeeps(df, cols, country)(row) && HasCommodity(df.columns, cols, commodity, row)
    && HitOf(df.columns, cols, row).Some?
  }

  function Selection(df: Frame, cols: MrdsColumns, commodity: string, country: string): Row -> bool {
    row => Selects(df, cols, commodity, country, row)
  }

  /** The coordinate step keeps the located rows in order, one hit each. */
  lemma {:induction false} LocatedRows(columns: seq<string>, cols: MrdsColumns, rows: seq<Row>)
    ensures Map(Located(columns, cols, rows), HitRow) == Filter(rows, Locatable(columns, cols))
  {
    if rows != [] {
      var init := rows[..|rows| - 1];
      var last := rows[|rows| - 1];
      LocatedRows(columns, cols, init);
      var front := Located(columns, cols, init);
      if HitOf(columns, cols, last).Some? {
        var h := HitOf(columns, cols, last).value;
        assert Located(columns, cols, rows) == front + [h];
        assert Map(front + [h], HitRow) == Map(front, HitRow) + [last];
      }
    }
  }

  function Held(df: Frame, col: string, normalized: string): Row -> bool {
    row => CountryHeld(df, col, normalized, row)
  }

  /** When some row holds the name, the rows holding it are the rows `CountryHeld` keeps. */
  lemma HeldDirect(df: Frame, col: string, normalized: string)
    requires CountryMatches(df, col, normalized) != []
    ensures CountryMatches(df, col, normalized) == Filter(df.rows, Held(df, col, normalized))
  {
    FilterAgree(df.rows, Mentions(df.columns, col, normalized), Held(df, col, normalized));
  }

  /** When no row holds the name or any alias, `CountryHeld` keeps nothing. */
  lemma HeldNone(df: Frame, col: string, normalized: string)
    requires CountryMatches(df, col, normalized) == []
    requires forall k :: 0 <= k < |CountryAliases(normalized)| ==> CountryMatches(df, col, CountryAliases(normalized)[k]) == []
    ensures Filter(df.rows, Held(df, col, normalized)) == []
  {
    var aliases := CountryAliases(normalized);
    forall i | 0 <= i < |df.rows| ensures !CountryHeld(df, col, normalized, df.rows[i]) {
      var row := df.rows[i];
      assert row !in CountryMatches(df, col, normalized);
      forall k | 0 <= k < |aliases| ensures !MatchesCountry(df.columns, row, col, aliases[k]) {
        assert row !in CountryMatches(df, col, aliases[k]);
      }
    }
    FilterNone(df.rows, Held(df, col, normalized));
  }

  /** When no row holds the name, the rows of the first alias some row holds are
      the rows `CountryHeld` keeps. */
  lemma HeldAlias(df: Frame, col: string, normalized: string, k: int)
    requires CountryMatches(df, col, normalized) == []
    requires 0 <= k < |CountryAliases(normalized)|
    requires CountryMatches(df, col, CountryAliases(normalized)[k]) != []
    requires forall j :: 0 <= j < k ==> CountryMatches(df, col, CountryAliases(normalized)[j]) == []
    ensures CountryMatches(df, col, CountryAliases(normalized)[k]) == Filter(df.rows, Held(df, col, normalized))
  {
    var aliases := CountryAliases(normalized);
    forall row | row in df.rows
      ensures MatchesCountry(df.columns, row, col, aliases[k]) <==> CountryHeld(df, col, normalized, row)
    {
      assert row !in CountryMatches(df, col, normalized);
      if CountryHeld(df, col, normalized, row) {
        var k' :| 0 <= k' < |aliases| && MatchesCountry(df.columns, row, col, aliases[k'])
                  && forall j :: 0 <= j < k' ==> CountryMatches(df, col, aliases[j]) == [];
        assert row in CountryMatches(df, col, aliases[k']);
      }
    }
    FilterAgree(df.rows, Mentions(df.columns, col, aliases[k]), Held(df, col, normalized));
  }

  /** The country step is a filter of the table by the country test. */
  lemma CountryRowsOrder(df: Frame, cols: MrdsColumns, country: string)
    ensures CountryRows(df, cols, country) == Filter(df.rows, CountryKeeps(df, cols, country))
  {
    var keeps := CountryKeeps(df, cols, country);
    if country == "" || !Truthy(cols.country) {
      FilterAll(df.rows, keeps);
    } else {
      var col := cols.country.value;
      var normalized := NormalizeCountry(country);
      var aliases := CountryAliases(normalized);
      FilterAgree(df.rows, Held(df, col, normalized), keeps);
      if CountryMatches(df, col, normalized) != [] {
        HeldDirect(df, col, normalized);
      } else {
        FirstAliasMatchSpec(df, col, aliases);
        if FirstAliasMatch(df, col, aliases) == [] {
          HeldNone(df, col, normalized);
        } else {
          var k :| 0 <= k < |aliases| && FirstAliasMatch(df, col, aliases) == CountryMatches(df, col, aliases[k])
                   && forall j :: 0 <= j < k ==> CountryMatches(df, col, aliases[j]) == [];
          HeldAlias(df, col, normalized, k);
        }
      }
    }
  }

  /** The selected rows are the table's rows passing all three steps, in order. */
  lemma SelectedOrder(df: Frame, cols: MrdsColumns, commodity: string, country: string)
    ensures Map(Selected(df, cols, commodity, country), HitRow) == Filter(df.rows, Selection(df, cols, commodity, country))
  {
    var keeps := CountryKeeps(df, cols, country);
    var sel := Selection(df, cols, commodity, country);
    var located := Locatable(df.columns, cols);
    var countryRows := CountryRows(df, cols, country);
    CountryRowsOrder(df, cols, country);
    var rows := CommodityRows(df.columns, cols, commodity, countryRows);
    LocatedRows(df.columns, cols, rows);
    FilterAgree(rows, located, sel);
    if commodity == "" {
      FilterFilter(df.rows, keeps, sel);
    } else {
      var term := HoldsTerm(df.columns, cols, commodity);
      FilterFilter(countryRows, term, sel);
      FilterFilter(df.rows, keeps, sel);
    }
  }

  /** The results are the first `limit` selected hits (all of them when there are
      fewer), one site each and in order; each is tagged "mrds", named, and carries
      at most ten clean commodity names. */
  lemma SearchBounded(df: Frame, cols: MrdsColumns, commodity: string, country: string, limit: int)
    ensures var r := SearchResults(df, cols, commodity, country, limit);
            var sel := Selected(df, cols, commodity, country);
            (limit >= 0 ==> |r| == if limit < |sel| then limit else |sel|)
            && (forall i :: 0 <= i < |r| ==> r[i] == SiteOf(df.columns, cols, sel[i]))
            && forall i :: 0 <= i < |r| ==>
                 r[i].source == "mrds" && r[i].name != "" && |r[i].commodities| <= 10
                 && forall p :: p in r[i].commodities ==> p != "" && Stripped(p) && ',' !in p && ';' !in p
  {
    var hits := Take(Selected(df, cols, commodity, country), limit);
    var r := Sites(df.columns, cols, hits);
    forall i | 0 <= i < |r|
      ensures r[i].source == "mrds" && r[i].name != "" && |r[i].commodities| <= 10
              && forall p :: p in r[i].commodities ==> p != "" && Stripped(p) && ',' !in p && ';' !in p
    {
      SiteClean(df.columns, cols, hits[i]);
    }
  }

  /** When the limit does not cut, every row that survives the country step,
      holds the commodity term and has numeric coordinates yields a result. */
  lemma SearchComplete(df: Frame, cols: MrdsColumns, commodity: string, country: string, limit: int, row: Row)
    requires row in CountryRows(df, cols, country) && HasCommodity(df.columns, cols, commodity, row)
    requires HitOf(df.columns, cols, row).Some?
    requires limit >= |Selected(df, cols, commodity, country)|
    ensures SiteOf(df.columns, cols, HitOf(df.columns, cols, row).value) in SearchResults(df, cols, commodity, country, limit)
  {
    var sel := Selected(df, cols, commodity, country);
    var h := HitOf(df.columns, cols, row).value;
    SelectedSpec(df, cols, commodity, country);
    assert h in sel;
    var m :| 0 <= m < |sel| && sel[m] == h;
    assert Take(sel, limit) == sel;
    assert SearchResults(df, cols, commodity, country, limit)[m] == SiteOf(df.columns, cols, h);
  }

  /** One result carries at most ten clean commodity names. */
  lemma SiteClean(columns: seq<string>, cols: MrdsColumns, h: Hit)
    ensures var s := SiteOf(columns, cols, h);
            |s.commodities| <= 10
            && forall p :: p in s.commodities ==> p != "" && Stripped(p) && ',' !in p && ';' !in p
  {
    CommodityListSpec(Blob(columns, cols.commodityFields, h.row));
  }

  /** Every result comes from a row of the table whose two coordinate cells are
      the numbers reported, which holds the commodity term when one is given and,
      when a country is given, whose country cell holds its normalised name or,
      when no row does, the first alias some row holds. */
  lemma SearchFromTable(df: Frame, cols: MrdsColumns, commodity: string, country: string, limit: int, i: int)
    requires 0 <= i < |SearchResults(df, cols, commodity, country, limit)|
    ensures var s := SearchResults(df, cols, commodity, country, limit)[i];
            exists row :: row in df.rows
              && Coordinate(Get(df.columns, row, cols.latitude)) == Some(s.lat)
              && Coordinate(Get(df.columns, row, cols.longitude)) == Some(s.lng)
              && (commodity != "" ==> Contains(Blob(df.columns, cols.commodityFields, row), Lower(commodity)))
              && (country != "" && Truthy(cols.country) ==> CountryHeld(df, cols.country.value, NormalizeCountry(country), row))
  {
    var countryRows := CountryRows(df, cols, country);
    var rows := CommodityRows(df.columns, cols, commodity, countryRows);
    var hits := Selected(df, cols, commodity, country);
    var h := hits[i];
    var s := SearchResults(df, cols, commodity, country, limit)[i];
    assert s == SiteOf(df.columns, cols, h);
    LocatedSpec(df.columns, cols, rows);
    assert h in hits;
    var row := h.row;
    assert row in rows && HitOf(df.columns, cols, row) == Some(h);
    assert row in countryRows && HasCommodity(df.columns, cols, commodity, row);
    CountryRowsFromTable(df, cols, country);
    if country != "" && Truthy(cols.country) {
      CountryRowsHeld(df, cols, country, row);
    }
    assert Coordinate(Get(df.columns, row, cols.latitude)) == Some(s.lat);
    assert Coordinate(Get(df.columns, row, cols.longitude)) == Some(s.lng);
  }

  /** The row holds `normalized` in its country cell, or no row does and the row
      holds the first alias that some row holds. */
  predicate CountryHeld(df: Frame, col: string, normalized: string, row: Row) {
    var aliases := CountryAliases(normalized);
    MatchesCountry(df.columns, row, col, normalized)
    || (CountryMatches(df, col, normalized) == []
        && exists k :: 0 <= k < |aliases| && MatchesCountry(df.columns, row, col, aliases[k])
                       && forall j :: 0 <= j < k ==> CountryMatches(df, col, aliases[j]) == [])
  }

  /** Every row the country step keeps holds the name or the alias it was kept for. */
  lemma CountryRowsHeld(df: Frame, cols: MrdsColumns, country: string, row: Row)
    requires country != "" && Truthy(cols.country) && row in CountryRows(df, cols, country)
    ensures CountryHeld(df, cols.country.value, NormalizeCountry(country), row)
  {
    CountryRowsOrder(df, cols, country);
    assert CountryKeeps(df, cols, country)(row);
  }


  /** The alias loop only ever picks rows of the table. */
  lemma {:induction false} FirstAliasMatchRows(df: Frame, col: string, aliases: seq<string>)
    ensures forall row :: row in FirstAliasMatch(df, col, aliases) ==> row in df.rows
  {
    if aliases != [] && CountryMatches(df, col, aliases[0]) == [] {
      FirstAliasMatchRows(df, col, aliases[1..]);
    }
  }

  /** The country step only ever keeps rows of the table. */
  lemma CountryRowsFromTable(df: Frame, cols: MrdsColumns, country: string)
    ensures forall row :: row in CountryRows(df, cols, country) ==> row in df.rows
  {
    if country != "" && Truthy(cols.country) {
      FirstAliasMatchRows(df, cols.country.value, CountryAliases(NormalizeCountry(country)));
    }
  }

  /** When the normalised name matches some row, the aliases are never consulted;
      otherwise the rows are those of the first alias that matches, and none at all
      when no alias does. */
  lemma CountryFallback(df: Frame, cols: MrdsColumns, country: string)
    requires country != "" && Truthy(cols.country)
    ensures var normalized := NormalizeCountry(country);
            var direct := CountryMatches(df, cols.country.value, normalized);
            var aliases := CountryAliases(normalized);
            var r := CountryRows(df, cols, country);
            (direct != [] ==> r == direct)
            && (direct == [] ==>
                  (r == [] <==> forall k :: 0 <= k < |aliases| ==> CountryMatches(df, cols.country.value, aliases[k]) == [])
                  && (r != [] ==> exists k :: 0 <= k < |aliases| && r == CountryMatches(df, cols.country.value, aliases[k])
                                              && forall j :: 0 <= j < k ==> CountryMatches(df, cols.country.value, aliases[j]) == []))
  {
    FirstAliasMatchSpec(df, cols.country.value, CountryAliases(NormalizeCountry(country)));
  }

  /** The country step of `search`: the rows holding the normalised name, else the
      rows of each alias in turn until one matches. */
  method CountryStep(table: Frame, c: MrdsColumns, country: string) returns (work: seq<Row>)
    ensures work == CountryRows(table, c, country)
  {
    work := table.rows;
    if country != "" && Truthy(c.country) {
      var normalized := NormalizeCountry(country);
      work := CountryMatches(table, c.country.value, normalized);
      if work == [] {
        var aliases := CountryAliases(normalized);
        var i := 0;
        while i < |aliases|
          invariant 0 <= i <= |aliases|
          invariant work == []
          invariant FirstAliasMatch(table, c.country.value, aliases)
                    == FirstAliasMatch(table, c.country.value, aliases[i..])
        {
          work := CountryMatches(table, c.country.value, aliases[i]);
          if work != [] {
            break;
          }
          assert aliases[i..][1..] == aliases[i + 1..];
          i := i + 1;
        }
        assert work == FirstAliasMatch(table, c.country.value, aliases);
      }
    }
  }

  /** `search` once the table and its columns are at hand: the country and
      commodity steps, the coordinate check, the limit, and one result per row. */
  method Query(table: Frame, c: MrdsColumns, commodity: string, country: string, limit: int)
    returns (results: seq<Site>)
    ensures results == SearchResults(table, c, commodity, country, limit)
  {
    var work := CountryStep(table, c, country);
    work := CommodityRows(table.columns, c, commodity, work);
    var top := Take(Located(table.columns, c, work), limit);
    assert top == Take(Selected(table, c, commodity, country), limit);
    results := BuildSites(table.columns, c, top);
  }

  /** The result loop: one site per kept row, in order. */
  method BuildSites(columns: seq<string>, c: MrdsColumns, top: seq<Hit>) returns (results: seq<Site>)
    ensures results == Sites(columns, c, top)
  {
    results := [];
    for j := 0 to |top|
      invariant results == Map(top[..j], SiteFor(columns, c))
    {
      MapSnoc(top, SiteFor(columns, c), j);
      results := results + [SiteOf(columns, c, top[j])];
    }
    assert top[..|top|] == top;
  }

  /** Why `search` cannot run: the column inference failed, or it failed on an
      earlier call after the table was cached, so no column map exists. */
  datatype SearchError = Inference(e: InferError) | NoColumns

  /** The table as `_load_dataframe` prepares it: headers normalised. */
  function Prepared(raw: Frame): Frame {
    Frame(seq(|raw.columns|, i requires 0 <= i < |raw.columns| => Normalize(raw.columns[i])), raw.rows)
  }

  /** The columns after a first load of `table`: the inferred ones, or the
      previous ones when inference fails. */
  function InferredOr(table: Frame, previous: Option<MrdsColumns>): Option<MrdsColumns> {
    match InferColumns(table.columns)
    case Ok(c) => Some(c)
    case Err(_) => previous
  }

  /** `MRDSClient`: the CSV it would download and extract is the `source` it is
      built with; `df` and `cols` are the `_df` / `_cols` cache. */
  class MrdsClient {
    const source: Frame
    var df: Option<Frame>
    var cols: Option<MrdsColumns>

    constructor(source: Frame)
      ensures this.source == source && df.None? && cols.None?
    {
      this.source := source;
      df := None;
      cols := None;
    }

    /** `_load_dataframe`: the cached table, or the prepared table, cached before
      the column inference that may then fail. */
    method LoadDataframe() returns (r: Result<Frame, InferError>)
      modifies this
      ensures old(df).Some? ==> r == Ok(old(df).value) && df == old(df) && cols == old(cols)
      ensures old(df).None? ==>
                df == Some(Prepared(source))
                && match InferColumns(Prepared(source).columns)
                   case Ok(c) => cols == Some(c) && r == Ok(Prepared(source))
                   case Err(e) => cols == old(cols) && r == Err(e)
    {
      if df.Some? {
        return Ok(df.value);
      }
      var columns := seq(|source.columns|, i requires 0 <= i < |source.columns| => Normalize(source.columns[i]));
      var table := Frame(columns, source.rows);
      df := Some(table);
      var inferred := InferColumns(columns);
      match inferred {
        case Ok(c) =>
          cols := Some(c);
          r := Ok(table);
        case Err(e) =>
          r := Err(e);
      }
    }

    /** `search`. The cached table is never changed by a query: a query only
      reads it, as the source works on a copy. */
    method Search(commodity: string, country: string, limit: int) returns (r: Result<seq<Site>, SearchError>)
      modifies this
      ensures old(df).Some? ==> df == old(df) && cols == old(cols)
      ensures old(df).None? ==> df == Some(Prepared(source)) && cols == InferredOr(Prepared(source), old(cols))
      ensures old(df).Some? && old(cols).None? ==> r == Err(NoColumns)
      ensures old(df).None? && InferColumns(Prepared(source).columns).Err? ==>
                r == Err(Inference(InferColumns(Prepared(source).columns).error))
      ensures r.Ok? ==> df.Some? && cols.Some?
                        && r.value == SearchResults(df.value, cols.value, commodity, country, limit)
      ensures (old(df).Some? && old(cols).Some?) || (old(df).None? && InferColumns(Prepared(source).columns).Ok?) ==> r.Ok?
    {
      var loaded := LoadDataframe();
      if loaded.Err? {
        return Err(Inference(loaded.error));
      }
      if cols.None? {
        return Err(NoColumns);
      }
      var results := Query(loaded.value, cols.value, commodity, country, limit);
      return Ok(results);
    }
  }
}
